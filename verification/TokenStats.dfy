/**
 The C client's token statistics: a file of counters that is read and rewritten as a
 whole for each changed field, beside the log of usage events. All writes are made by
 the main thread.
 */
module TokenStats {
  import opened TokenCounts

  datatype Key =
    | CurrentTurnCount | AgentRequestCount | CompactRequestCount | SubAgentRequestCount
    | TotalInput | TotalOutput | TotalCacheRead | TotalCacheCreation
    | CurrentContext | LastCallSpeed
    | UnknownKey(name: string)

  function Plus(a: Tokens, b: Tokens): Tokens {
    Tokens(a.input + b.input, a.output + b.output, a.cacheRead + b.cacheRead, a.cacheWrite + b.cacheWrite)
  }

  /** The ten counters of the file; the four token totals together. */
  datatype Counters = Counters(
    turns: int, agentRequests: int, compactRequests: int, subAgentRequests: int,
    totals: Tokens, context: int, speed: int)

  const ZERO := Counters(0, 0, 0, 0, NO_TOKENS, 0, 0)

  /** A file that is missing or does not parse, or what its fields read as, a missing one as zero. */
  datatype File = Unreadable | Fields(counters: Counters)

  function Read(file: File): Counters {
    if file.Fields? then file.counters else ZERO
  }

  function Get(c: Counters, key: Key): int {
    match key
    case CurrentTurnCount => c.turns
    case AgentRequestCount => c.agentRequests
    case CompactRequestCount => c.compactRequests
    case SubAgentRequestCount => c.subAgentRequests
    case TotalInput => c.totals.input
    case TotalOutput => c.totals.output
    case TotalCacheRead => c.totals.cacheRead
    case TotalCacheCreation => c.totals.cacheWrite
    case CurrentContext => c.context
    case LastCallSpeed => c.speed
    case UnknownKey(_) => 0
  }

  function Put(c: Counters, key: Key, value: int): Counters {
    match key
    case CurrentTurnCount => c.(turns := value)
    case AgentRequestCount => c.(agentRequests := value)
    case CompactRequestCount => c.(compactRequests := value)
    case SubAgentRequestCount => c.(subAgentRequests := value)
    case TotalInput => c.(totals := c.totals.(input := value))
    case TotalOutput => c.(totals := c.totals.(output := value))
    case TotalCacheRead => c.(totals := c.totals.(cacheRead := value))
    case TotalCacheCreation => c.(totals := c.totals.(cacheWrite := value))
    case CurrentContext => c.(context := value)
    case LastCallSpeed => c.(speed := value)
    case UnknownKey(_) => c
  }

  datatype UsageKind = AgentUsage | CompactUsage | SubAgentUsage | GoalUsage

  datatype UsageEvent = UsageEvent(kind: UsageKind, tokens: Tokens)

  /** The sum over the logged usage events, those of the goal judge left out or not. */
  function Sum(log: seq<UsageEvent>, withGoal: bool): Tokens {
    if log == [] then NO_TOKENS
    else
      var last := log[|log| - 1];
      var before := Sum(log[..|log| - 1], withGoal);
      if last.kind == GoalUsage && !withGoal then before else Plus(before, last.tokens)
  }

  function GoalSum(log: seq<UsageEvent>): Tokens {
    if log == [] then NO_TOKENS
    else
      var last := log[|log| - 1];
      var before := GoalSum(log[..|log| - 1]);
      if last.kind == GoalUsage then Plus(before, last.tokens) else before
  }

  lemma {:induction false} GoalIsTheDifference(log: seq<UsageEvent>)
    ensures Sum(log, true) == Plus(Sum(log, false), GoalSum(log))
  {
    if log != [] { GoalIsTheDifference(log[..|log| - 1]); }
  }

  /** What happens in a session, as far as tokens are concerned. */
  datatype Activity =
    | TurnStarted
    | Reply(tokens: Tokens, speed: int, speedReady: bool)
    | Compaction(tokens: Tokens)
    | SubAgentResult(tokens: Tokens, requests: int)
    | GoalJudged(tokens: Tokens)

  // -------- what a session's activities add up to

  predicate Answers(t: Tokens) {
    t.input > 0 || t.output > 0
  }

  predicate Used(t: Tokens) {
    Answers(t) || t.cacheRead > 0 || t.cacheWrite > 0
  }

  /** How many requests of agents an activity stands for. */
  function RequestsOf(a: Activity): int {
    match a
    case Reply(t, _, _) => if Answers(t) then 1 else 0
    case SubAgentResult(_, requests) => requests
    case _ => 0
  }

  function Requests(activities: seq<Activity>): int {
    if activities == [] then 0
    else Requests(activities[..|activities| - 1]) + RequestsOf(activities[|activities| - 1])
  }

  function Number(counts: Activity -> bool, activities: seq<Activity>): nat {
    if activities == [] then 0
    else
      Number(counts, activities[..|activities| - 1]) + if counts(activities[|activities| - 1]) then 1 else 0
  }

  /** The context is that of the last reply with tokens. */
  function ContextBehind(context: int, activities: seq<Activity>): int {
    if activities == [] then context
    else
      var last := activities[|activities| - 1];
      if last.Reply? && Answers(last.tokens) && Size(last.tokens) > 0 then Size(last.tokens)
      else ContextBehind(context, activities[..|activities| - 1])
  }

  function Size(t: Tokens): int {
    t.input + t.output + t.cacheRead + t.cacheWrite
  }

  function SpeedBehind(speed: int, activities: seq<Activity>): int {
    if activities == [] then speed
    else
      var last := activities[|activities| - 1];
      if last.Reply? && last.speedReady then last.speed else SpeedBehind(speed, activities[..|activities| - 1])
  }

  predicate Starts(a: Activity) {
    a.TurnStarted?
  }

  predicate Compacts(a: Activity) {
    a.Compaction? && Used(a.tokens)
  }

  predicate Delegates(a: Activity) {
    a.SubAgentResult?
  }

  /** The six counters beside the totals, behind some activities. */
  predicate CountsUp(was: Counters, activities: seq<Activity>, now: Counters) {
    && now.turns == was.turns + Number(Starts, activities)
    && now.agentRequests == was.agentRequests + Requests(activities)
    && now.compactRequests == was.compactRequests + Number(Compacts, activities)
    && now.subAgentRequests == was.subAgentRequests + Number(Delegates, activities)
    && now.context == ContextBehind(was.context, activities)
    && now.speed == SpeedBehind(was.speed, activities)
  }

  /** What one activity does to them. */
  predicate CountsOne(before: Counters, a: Activity, now: Counters) {
    && now.turns == before.turns + (if Starts(a) then 1 else 0)
    && now.agentRequests == before.agentRequests + RequestsOf(a)
    && now.compactRequests == before.compactRequests + (if Compacts(a) then 1 else 0)
    && now.subAgentRequests == before.subAgentRequests + (if Delegates(a) then 1 else 0)
    && now.context == (if a.Reply? && Answers(a.tokens) && Size(a.tokens) > 0 then Size(a.tokens) else before.context)
    && now.speed == (if a.Reply? && a.speedReady then a.speed else before.speed)
  }

  lemma CountsNext(was: Counters, activities: seq<Activity>, i: nat, before: Counters, now: Counters)
    requires i < |activities| && CountsUp(was, activities[..i], before) && CountsOne(before, activities[i], now)
    ensures CountsUp(was, activities[..i + 1], now)
  {
    assert activities[..i + 1][..i] == activities[..i];
  }

  lemma NothingCounts(c: Counters)
    ensures CountsUp(c, [], c)
  {
  }

  class Session {
    var file: File
    var log: seq<UsageEvent>

    /** The totals in the file are the sums over the log without the goal judge's events. */
    ghost predicate Agrees()
      reads this
    {
      Read(file).totals == Sum(log, false)
    }

    constructor ()
      ensures Agrees() && log == [] && Read(file) == ZERO
    {
      file := Fields(ZERO);
      log := [];
    }

    /** store_stats_set_int_file: the whole file is read, one field changed, and all ten written. */
    method SetInt(key: Key, value: int)
      modifies `file
      ensures file == Fields(Put(Read(old(file)), key, value))
      ensures forall k: Key :: Get(Read(file), k) ==
                if k == key && !key.UnknownKey? then value else Get(Read(old(file)), k)
    {
      var c := ZERO;
      if file.Fields? {
        c := file.counters;
      }
      file := Fields(Put(c, key, value));
    }

    method AddInt(key: Key, delta: int)
      modifies `file
      ensures file == Fields(Put(Read(old(file)), key, Get(Read(old(file)), key) + delta))
    {
      SetInt(key, Get(Read(file), key) + delta);
    }

    /** The four totals grow together; nothing else changes. */
    method AddTotals(t: Tokens)
      modifies `file
      ensures file == Fields(Read(old(file)).(totals := Plus(Read(old(file)).totals, t)))
    {
      AddInt(TotalInput, t.input);
      AddInt(TotalOutput, t.output);
      AddInt(TotalCacheRead, t.cacheRead);
      AddInt(TotalCacheCreation, t.cacheWrite);
    }

    method LogUsage(kind: UsageKind, t: Tokens)
      modifies `log
      ensures log == old(log) + [UsageEvent(kind, t)]
      ensures Sum(log, false) == if kind == GoalUsage then Sum(old(log), false) else Plus(Sum(old(log), false), t)
    {
      log := log + [UsageEvent(kind, t)];
      assert log[..|log| - 1] == old(log);
    }

    method RecordReply(t: Tokens, speed: int, speedReady: bool)
      requires Agrees()
      modifies this
      ensures Agrees()
      ensures log == old(log) + if Answers(t) then [UsageEvent(AgentUsage, t)] else []
      ensures var c := Read(old(file));
        Read(file) == c.(agentRequests := c.agentRequests + if Answers(t) then 1 else 0,
                         totals := if Answers(t) then Plus(c.totals, t) else c.totals,
                         context := if Answers(t) && Size(t) > 0 then Size(t) else c.context,
                         speed := if speedReady then speed else c.speed)
    {
      if t.input > 0 || t.output > 0 {
        LogUsage(AgentUsage, t);
        AddInt(AgentRequestCount, 1);
        AddTotals(t);
        var context := t.input + t.output + t.cacheRead + t.cacheWrite;
        if context > 0 {
          SetInt(CurrentContext, context);
        }
      }
      if speedReady {
        SetInt(LastCallSpeed, speed);
      }
    }

    method RecordCompaction(t: Tokens)
      requires Agrees()
      modifies this
      ensures Agrees()
      ensures log == old(log) + if Used(t) then [UsageEvent(CompactUsage, t)] else []
      ensures var c := Read(old(file));
        Read(file) == c.(compactRequests := c.compactRequests + if Used(t) then 1 else 0,
                         totals := if Used(t) then Plus(c.totals, t) else c.totals)
    {
      if t.input > 0 || t.output > 0 || t.cacheRead > 0 || t.cacheWrite > 0 {
        AddInt(CompactRequestCount, 1);
        AddTotals(t);
        LogUsage(CompactUsage, t);
      }
    }

    method RecordSubAgent(t: Tokens, requests: int)
      requires Agrees()
      modifies this
      ensures Agrees() && log == old(log) + [UsageEvent(SubAgentUsage, t)]
      ensures var c := Read(old(file));
        Read(file) == c.(subAgentRequests := c.subAgentRequests + 1, agentRequests := c.agentRequests + requests,
                         totals := Plus(c.totals, t))
    {
      LogUsage(SubAgentUsage, t);
      AddTotals(t);
      AddInt(SubAgentRequestCount, 1);
      AddInt(AgentRequestCount, requests);
    }

    method RecordGoal(t: Tokens)
      requires Agrees()
      modifies `log
      ensures Agrees()
      ensures log == old(log) +
                if t.input > 0 || t.output > 0 || t.cacheRead > 0 || t.cacheWrite > 0 then [UsageEvent(GoalUsage, t)] else []
    {
      if t.input > 0 || t.output > 0 || t.cacheRead > 0 || t.cacheWrite > 0 {
        LogUsage(GoalUsage, t);
      }
    }

    method Record(a: Activity)
      requires Agrees()
      modifies this
      ensures Agrees() && CountsOne(Read(old(file)), a, Read(file))
    {
      hide Sum;
      match a {
        case TurnStarted => AddInt(CurrentTurnCount, 1);
        case Reply(t, speed, ready) => RecordReply(t, speed, ready);
        case Compaction(t) => RecordCompaction(t);
        case SubAgentResult(t, requests) => RecordSubAgent(t, requests);
        case GoalJudged(t) => RecordGoal(t);
      }
    }

    /**
     A whole session, whatever happens in it: at every boundary the four totals are the sums
     over the usage events of replies, compactions and sub-agents; they are the sums over all
     usage events exactly when the goal judge used nothing. The other counters say how many
     turns, requests, compactions and sub-agents there were, and what the last reply left.
     */
    method Run(activities: seq<Activity>)
      requires Agrees()
      modifies this
      ensures Agrees()
      ensures Read(file).totals == Sum(log, true) <==> GoalSum(log) == NO_TOKENS
      ensures CountsUp(Read(old(file)), activities, Read(file))
    {
      hide CountsUp, CountsOne, Sum, GoalSum, Plus;
      ghost var was := Read(file);
      NothingCounts(was);
      assert activities[..0] == [];
      for i := 0 to |activities|
        invariant Agrees() && CountsUp(was, activities[..i], Read(file))
      {
        ghost var before := Read(file);
        Record(activities[i]);
        CountsNext(was, activities, i, before, Read(file));
      }
      assert activities[..|activities|] == activities;
      TotalsWithGoalIff(log);
    }
  }

  lemma TotalsWithGoalIff(log: seq<UsageEvent>)
    ensures Sum(log, false) == Sum(log, true) <==> GoalSum(log) == NO_TOKENS
  {
    GoalIsTheDifference(log);
  }
}
