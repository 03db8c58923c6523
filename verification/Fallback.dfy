/**
 The fallback walk of api.go: timeout arithmetic, the budget of one request, and
 the loops over attempts, proxy retries, cooldown waits and pauses that must not
 leave a client without output for longer than that budget.  Time is in integer
 nanoseconds; choosing endpoints and calling them are scripts the loops follow.
 */
module Fallback {
  import opened Text

  const MILLISECOND := 1_000_000
  const SECOND := 1_000_000_000
  const MINUTE := 60 * SECOND

  const MAX_SESSION_INTERRUPTION := 30 * SECOND
  const MAX_REQUEST_ATTEMPT_TIMEOUT := MAX_SESSION_INTERRUPTION - 5 * SECOND
  const MAX_LARGE_CONTEXT_ATTEMPT_TIMEOUT := 5 * MINUTE
  const MAX_LARGE_CONTEXT_SESSION_BUDGET := 8 * MINUTE
  const LARGE_CONTEXT_TOKENS := 50_000
  const INTER_ATTEMPT_BACKOFF := 250 * MILLISECOND

  function Least(a: int, b: int): int { if a < b then a else b }

  // ----- timeouts -----

  /** requestTimeout */
  function RequestTimeout(tokens: int): int {
    if tokens <= 1000 then 5 * SECOND
    else Least(5 * SECOND + (tokens - 1000 + 9999) / 10000 * SECOND, MAX_REQUEST_ATTEMPT_TIMEOUT)
  }

  /** requestAttemptTimeout */
  function RequestAttemptTimeout(tokens: int): int {
    if tokens < LARGE_CONTEXT_TOKENS then RequestTimeout(tokens)
    else Least(MAX_SESSION_INTERRUPTION + (tokens - LARGE_CONTEXT_TOKENS + 9999) / 10000 * 2 * SECOND,
               MAX_LARGE_CONTEXT_ATTEMPT_TIMEOUT)
  }

  /** attemptCeiling */
  function AttemptCeiling(tokens: int): int {
    if tokens >= LARGE_CONTEXT_TOKENS then MAX_LARGE_CONTEXT_ATTEMPT_TIMEOUT else MAX_SESSION_INTERRUPTION
  }

  /** fallbackBudget */
  function FallbackBudget(timeout: int): int {
    if timeout > MAX_REQUEST_ATTEMPT_TIMEOUT then Least(2 * timeout + 10 * SECOND, MAX_LARGE_CONTEXT_SESSION_BUDGET)
    else
      var budget := if timeout <= 5 * SECOND then 12 * SECOND
                    else if timeout <= 8 * SECOND then 20 * SECOND
                    else MAX_SESSION_INTERRUPTION;
      if budget < 2 * timeout <= MAX_SESSION_INTERRUPTION then 2 * timeout else budget
  }

  /** The wall clock one request may spend without output. */
  function Budget(tokens: int): int { FallbackBudget(RequestAttemptTimeout(tokens)) }

  lemma TimeoutBounds(tokens: int)
    ensures 5 * SECOND <= RequestAttemptTimeout(tokens) <= AttemptCeiling(tokens)
    ensures tokens < LARGE_CONTEXT_TOKENS ==> RequestAttemptTimeout(tokens) <= 10 * SECOND
    ensures tokens >= LARGE_CONTEXT_TOKENS ==> RequestAttemptTimeout(tokens) >= MAX_SESSION_INTERRUPTION
  {
  }

  /** At most 30s below the large-context threshold, at most 8 minutes always. */
  lemma BudgetBounds(tokens: int)
    ensures 12 * SECOND <= Budget(tokens) <= MAX_LARGE_CONTEXT_SESSION_BUDGET
    ensures tokens < LARGE_CONTEXT_TOKENS ==> Budget(tokens) <= MAX_SESSION_INTERRUPTION
  {
    TimeoutBounds(tokens);
  }

  lemma TimeoutMonotone(t: int, u: int)
    requires t <= u
    ensures RequestAttemptTimeout(t) <= RequestAttemptTimeout(u)
  {
    TimeoutBounds(t);
    TimeoutBounds(u);
  }

  /** A larger prompt never gets a smaller budget. */
  lemma BudgetMonotone(t: int, u: int)
    requires t <= u
    ensures Budget(t) <= Budget(u)
  {
    TimeoutMonotone(t, u);
  }

  /** The budget holds two full attempts whenever the ceiling that applies does, and only then. */
  lemma TwoAttemptsFit(tokens: int)
    ensures var ceiling := if tokens < LARGE_CONTEXT_TOKENS then MAX_SESSION_INTERRUPTION
                           else MAX_LARGE_CONTEXT_SESSION_BUDGET;
            2 * RequestAttemptTimeout(tokens) <= Budget(tokens) <==> 2 * RequestAttemptTimeout(tokens) <= ceiling
  {
    TimeoutBounds(tokens);
  }

  /** Up to 1000 tokens. */
  lemma SmallestPrompt(tokens: int)
    requires tokens <= 1000
    ensures RequestAttemptTimeout(tokens) == 5 * SECOND && Budget(tokens) == 12 * SECOND
  {
  }

  /** One second for each further 10000 tokens begun. */
  lemma NormalPrompt(tokens: int, k: nat)
    requires 1000 + 10_000 * (k - 1) < tokens <= 1000 + 10_000 * k && 1000 < tokens < 50_000
    ensures RequestAttemptTimeout(tokens) == (5 + k) * SECOND
    ensures Budget(tokens) == (if k <= 3 then 20 else 30) * SECOND
  {
  }

  /** From 50000 tokens on: half a minute, and two seconds for each further 10000 begun. */
  lemma LargePrompt(tokens: int, k: nat)
    requires 50_000 + 10_000 * (k - 1) < tokens <= 50_000 + 10_000 * k && 50_000 <= tokens
    ensures RequestAttemptTimeout(tokens) == Least(30 + 2 * k, 300) * SECOND
    ensures Budget(tokens) == Least(70 + 4 * k, 480) * SECOND
  {
  }

  // ----- the budget of one request -----

  /** attemptTimeout: what one attempt may spend of what is left; the first leaves a third for a fallback. */
  function AttemptShare(budget: int, left: int, attempts: nat, preferred: int): (t: int)
    ensures t >= 0 && (t > 0 ==> t <= preferred && t <= left)
    ensures t > 0 && attempts <= 1 && budget > 0 ==> t <= budget - budget / 3
    ensures preferred > 0 && left > 0 && budget > 1 ==>
              t > 0 && (t == preferred || t == left || (attempts <= 1 && t == budget - budget / 3))
  {
    if preferred <= 0 || left <= 0 then 0
    else
      var limit := budget - budget / 3;
      var share := if attempts <= 1 && budget > 0 && left > limit then limit else left;
      Least(preferred, share)
  }

  class BudgetState {
    const start: int
    const budget: int
    var attempts: nat
    var exhausted: bool
    var lastProgress: int

    constructor (start: int, timeout: int)
      ensures this.start == start && budget == FallbackBudget(timeout)
      ensures attempts == 0 && !exhausted && lastProgress == start
    {
      this.start := start;
      budget := FallbackBudget(timeout);
      attempts := 0;
      exhausted := false;
      lastProgress := start;
    }

    method Next()
      modifies `attempts
      ensures attempts == old(attempts) + 1
    {
      attempts := attempts + 1;
    }

    method MarkProgress(now: int)
      modifies `lastProgress
      ensures lastProgress == now
    {
      lastProgress := now;
    }

    /** How long the client has been without output. */
    function Silence(now: int): int
      reads this
    {
      now - lastProgress
    }

    function Remaining(now: int): int
      reads this
    {
      budget - Silence(now)
    }

    method ExhaustedNow(now: int) returns (stop: bool)
      modifies `exhausted
      ensures stop <==> attempts > 0 && Silence(now) > budget
      ensures exhausted == (old(exhausted) || stop)
    {
      if attempts > 0 && now - lastProgress > budget {
        exhausted := true;
        return true;
      }
      return false;
    }

    function AttemptTimeout(now: int, preferred: int): (t: int)
      reads this
      ensures t >= 0 && (t > 0 ==> t <= preferred && Silence(now) + t <= budget)
      ensures t > 0 && attempts <= 1 && budget > 0 ==> t <= budget - budget / 3
      ensures preferred > 0 && Remaining(now) > 0 && budget > 1 ==>
                t > 0 && (t == preferred || t == Remaining(now) || (attempts <= 1 && t == budget - budget / 3))
    {
      AttemptShare(budget, Remaining(now), attempts, preferred)
    }
  }

  /** cycleBackSleep; `draw` is the random number, None means give up now. */
  function CycleBackSleep(wait: int, remaining: int, ceiling: int, draw: nat): (r: Option<int>)
    ensures r.Some? <==> 0 < wait < remaining
    ensures r.Some? ==> 0 < r.value <= wait && r.value < remaining && r.value <= MAX_SESSION_INTERRUPTION
    ensures r.Some? && 0 < ceiling ==> r.value <= ceiling
    ensures r.Some? ==>
              4 * r.value >= 3 * Least(wait, if 0 < ceiling then Least(ceiling, MAX_SESSION_INTERRUPTION)
                                             else MAX_SESSION_INTERRUPTION)
  {
    var cap := if ceiling <= 0 || ceiling > MAX_SESSION_INTERRUPTION then MAX_SESSION_INTERRUPTION else ceiling;
    if wait <= 0 || wait >= remaining then None
    else
      var sleep := Least(wait, cap);
      var jitter := sleep / 4;
      Some(if jitter > 0 then sleep - draw % jitter else sleep)
  }

  /** interAttemptWait: how long the pause takes, nothing when it would outlast the walk. */
  function InterAttemptWait(remaining: int, ceiling: int, rateLimited: bool, draw: nat, again: nat): (pause: int)
    ensures 0 <= pause && (pause > 0 ==> pause < remaining)
    ensures var backoff := (if rateLimited then 500_000_000 else 250_000_000) + draw % 62_500_000;
            && (pause > 0 <==> backoff < remaining) && pause <= backoff
            && (pause > 0 && (ceiling <= 0 || backoff <= ceiling) ==> 4 * pause >= 3 * backoff)
  {
    var backoff := if rateLimited then INTER_ATTEMPT_BACKOFF * 2 else INTER_ATTEMPT_BACKOFF;
    match CycleBackSleep(backoff + draw % (INTER_ATTEMPT_BACKOFF / 4), remaining, ceiling, again)
    case None => 0
    case Some(sleep) => sleep
  }

  // ----- the walks -----

  /** What the client is told. */
  datatype Status = Ok200 | ClientGone499 | BadGateway502 | Unavailable503

  /** A moment of a walk, as the client sees it. */
  datatype Moment = Moment(now: int, lastProgress: int, attempts: nat)

  /** The moments of a walk, the latest outermost. */
  datatype Trace = Opening | Later(before: Trace, moment: Moment)

  /** At every moment the client has been without output for no longer than `silence`, and attempts are limited. */
  predicate NeverSilentBeyond(trace: Trace, silence: int, limit: nat) {
    match trace
    case Opening => true
    case Later(before, m) =>
      NeverSilentBeyond(before, silence, limit) && 0 <= m.now - m.lastProgress <= silence && m.attempts <= limit
  }

  /** Nothing has reached the client, so the silence is the whole time of the request; it stays within its limits. */
  predicate Unanswered(trace: Trace, budget: int, limit: nat) {
    match trace
    case Opening => true
    case Later(before, m) =>
      Unanswered(before, budget, limit) && m.lastProgress == 0 && 0 <= m.now <= budget && m.attempts <= limit
  }

  function MaxAttempts(chainLen: nat): nat { chainLen * 3 + 1 }

  type Key = string

  /** Where a walk stands: the time, the last output, the attempts made, and what it knows of endpoints. */
  datatype WalkState = WalkState(now: int, lastProgress: int, attempts: nat, tried: set<Key>, flips: set<Key>,
                                 advanced: bool)

  const AT_START := WalkState(0, 0, 0, {}, {}, false)

  /** What is left of the budget in the current silence. */
  function Left(budget: int, st: WalkState): int { budget - (st.now - st.lastProgress) }

  /** One attempt leads to an answer, or to the next one; `served` when it had an endpoint. */
  datatype Next = Stop(status: Status, served: Option<Served>) | Go(st: WalkState, served: Option<Served>)

  /** A turn without an endpoint: wait for the shortest cooldown, or give up with a status. */
  function WaitStep(vision: bool, budget: int, st: WalkState, wait: int, interruption: int, draw: nat, hungUp: bool,
                    gone: Status): Next
  {
    if vision then Stop(Ok200, None)
    else
      match CycleBackSleep(wait, Left(budget, st), interruption, draw)
      case None => Stop(Unavailable503, None)
      case Some(sleep) =>
        if hungUp then Stop(gone, None) else Go(st.(now := st.now + sleep, attempts := st.attempts + 1), None)
  }

  // ----- how often an endpoint is called -----

  /** How many proxies a turn may go through, at least one call; Command Code never uses the pool. */
  function MaxProxyTries(pool: int, commandCode: bool): (n: nat)
    ensures 1 <= n && (pool <= 0 ==> n == 1) && (pool > 0 ==> n <= pool)
  {
    if commandCode || pool <= 0 then 1 else pool
  }

  /**
   A turn that had an endpoint: at which attempt and with which endpoints tried it was picked, how often it was
   called, and whether it will be asked again over the other protocol.
   */
  datatype Served = Served(attempt: nat, tried: set<Key>, key: Key, called: nat, flip: bool)

  /** The turns of a request that had an endpoint, the latest outermost. */
  datatype Turns = Begin | Then(before: Turns, last: Served)

  function Length(turns: Turns): nat {
    match turns case Begin => 0 case Then(before, _) => Length(before) + 1
  }

  function Record(turns: Turns, served: Option<Served>): Turns {
    match served case None => turns case Some(s) => Then(turns, s)
  }

  /** The endpoints done with. */
  function Done(turns: Turns): set<Key> {
    match turns
    case Begin => {}
    case Then(before, s) => Done(before) + if s.flip then {} else {s.key}
  }

  /** The endpoints that refused a protocol. */
  function Flipped(turns: Turns): set<Key> {
    match turns
    case Begin => {}
    case Then(before, s) => Flipped(before) + if s.flip then {s.key} else {}
  }

  /**
   Attempt by attempt, no endpoint is picked again once it is done with, none flips
   twice, and no turn calls more often than `most`.
   */
  ghost predicate Fair(turns: Turns, most: Key -> nat) {
    match turns
    case Begin => true
    case Then(before, s) =>
      && Fair(before, most) && (before.Then? ==> before.last.attempt < s.attempt)
      && s.key !in Done(before) && (s.flip ==> s.key !in Flipped(before)) && s.called <= most(s.key)
  }

  /** How many turns an endpoint had, and how often it was called in all of them. */
  function TurnsOf(turns: Turns, key: Key): nat {
    match turns
    case Begin => 0
    case Then(before, s) => TurnsOf(before, key) + if s.key == key then 1 else 0
  }

  function CallsTo(turns: Turns, key: Key): nat {
    match turns
    case Begin => 0
    case Then(before, s) => CallsTo(before, key) + if s.key == key then s.called else 0
  }

  lemma {:induction false} FairBounds(turns: Turns, most: Key -> nat, key: Key)
    requires Fair(turns, most)
    ensures TurnsOf(turns, key) <= (if key in Done(turns) then 1 else 0) + (if key in Flipped(turns) then 1 else 0)
    ensures CallsTo(turns, key) <=
            (if key in Done(turns) then most(key) else 0) + (if key in Flipped(turns) then most(key) else 0)
  {
    if turns.Then? {
      FairBounds(turns.before, most, key);
    }
  }

  lemma {:induction false} FairLength(turns: Turns, most: Key -> nat)
    requires Fair(turns, most)
    ensures turns.Then? ==> Length(turns) <= turns.last.attempt + 1
  {
    if turns.Then? {
      FairLength(turns.before, most);
    }
  }

  /** Two turns at the most, and at most twice `most` calls, for every endpoint. */
  lemma SoTwiceAtMost(turns: Turns, most: Key -> nat)
    requires Fair(turns, most)
    ensures forall key :: TurnsOf(turns, key) <= 2 && CallsTo(turns, key) <= 2 * most(key)
  {
    forall key
      ensures TurnsOf(turns, key) <= 2 && CallsTo(turns, key) <= 2 * most(key)
    {
      FairBounds(turns, most, key);
    }
  }

  // ----- the completion walk -----

  datatype Response =
    | Answered
    | WriteFailed
    | WrongProtocol
    | Refused(retryable: bool, rateLimited: bool)
    | BadBody(unread: bool)

  /** What one call of Forward comes back with. */
  datatype Reply =
    | ProxyDown
    | EndpointDown(answered: bool)
    | ClientCanceled
    | Saturated
    | Responded(response: Response)

  /** One call: how long it takes, the body included, and what comes of it. */
  datatype Sent = Sent(took: nat, reply: Reply)

  /** One turn of the completion loop: what the router and the upstream do. */
  datatype Turn =
    | Cancelled
    | Nobody(wait: int, interruption: int, draw: nat, hungUp: bool)
    | Call(key: Key, commandCode: bool, ceiling: int, sameHost: set<Key>, sends: nat -> Sent, draw: nat, again: nat)

  /** What the router offers at an attempt, given the endpoints tried. */
  function Offer(script: (nat, set<Key>) -> Turn, attempt: nat, tried: set<Key>): Turn { script(attempt, tried) }

  /** The router never offers an endpoint this request has already tried. */
  ghost predicate Untried(script: (nat, set<Key>) -> Turn) {
    forall n, tried :: Offer(script, n, tried).Call? ==> Offer(script, n, tried).key !in tried
  }

  function TimeOf(sends: nat -> Sent, n: nat): nat { if n == 0 then 0 else TimeOf(sends, n - 1) + sends(n - 1).took }

  /** How often a turn calls: until a call does not fail at its proxy, or the tries are used up. */
  function Calls(sends: nat -> Sent, i: nat, maxTries: nat): (called: nat)
    requires i < maxTries
    ensures i < called <= maxTries && forall k :: i <= k < called - 1 ==> sends(k).reply.ProxyDown?
    ensures sends(called - 1).reply.ProxyDown? ==> called == maxTries
    decreases maxTries - i
  {
    if !sends(i).reply.ProxyDown? || i + 1 == maxTries then i + 1 else Calls(sends, i + 1, maxTries)
  }

  /** The proxy loop of one turn: proxy failures move on to another proxy, all calls share one deadline. */
  method ForwardLoop(start: int, limit: nat, maxProxyTries: nat, sends: nat -> Sent)
    returns (now: int, reply: Reply, called: nat)
    requires maxProxyTries >= 1
    ensures called == Calls(sends, 0, maxProxyTries) && reply == sends(called - 1).reply
    ensures now == start + Least(TimeOf(sends, called), limit)
  {
    now, called, reply := start, 0, ProxyDown;
    while called < maxProxyTries
      invariant now == start + Least(TimeOf(sends, called), limit)
      invariant called < maxProxyTries ==> Calls(sends, called, maxProxyTries) == Calls(sends, 0, maxProxyTries)
      invariant called == maxProxyTries ==> called == Calls(sends, 0, maxProxyTries)
      invariant called <= maxProxyTries && reply == (if called == 0 then ProxyDown else sends(called - 1).reply)
      invariant reply.ProxyDown?
    {
      var sent := sends(called);
      now := Least(now + sent.took, start + limit);
      called := called + 1;
      reply := sent.reply;
      if !reply.ProxyDown? {
        return;
      }
    }
  }

  /** Whether a failure takes the other endpoints of the host out of this request. */
  predicate HostFault(reply: Reply) {
    (reply.EndpointDown? && !reply.answered) || (reply.Responded? && reply.response == BadBody(true))
  }

  function MostForwards(pool: Key -> int): Key -> nat { key => MaxProxyTries(pool(key), false) }

  /** Where the turn leads: an answer for the client, the same endpoint over the other protocol, or the next one. */
  datatype Verdict = Return(status: Status) | Flip | Advance(pause: int, hard: bool)

  /** handleCompletion behind its proxy loop; `flipped` and `advanced` are what the request did before. */
  function Judge(reply: Reply, flipped: bool, advanced: bool, remaining: int, ceiling: int, draw: nat, again: nat)
    : (v: Verdict)
    ensures v.Flip? ==> !flipped && reply == Responded(WrongProtocol)
    ensures v.Advance? ==> 0 <= v.pause && (v.pause > 0 ==> v.pause < remaining)
    ensures v.Advance? && v.hard ==> !advanced
  {
    match reply
    case ProxyDown => Advance(0, false)
    case EndpointDown(_) => Advance(0, false)
    case ClientCanceled => Return(ClientGone499)
    case Saturated => Return(Unavailable503)
    case Responded(Answered) => Return(Ok200)
    case Responded(WriteFailed) => Return(ClientGone499)
    case Responded(BadBody(_)) => Advance(0, false)
    case Responded(WrongProtocol) =>
      if flipped then Advance(InterAttemptWait(remaining, ceiling, false, draw, again), false) else Flip
    case Responded(Refused(retryable, rateLimited)) =>
      if retryable then Advance(InterAttemptWait(remaining, ceiling, rateLimited, draw, again), false)
      else if advanced then Return(BadGateway502)
      else Advance(0, true)
  }

  /** The last call of the turn brought the answer. */
  predicate AnswerFrom(script: (nat, set<Key>) -> Turn, s: Served) {
    var turn := script(s.attempt, s.tried);
    turn.Call? && turn.key == s.key && s.called > 0 && turn.sends(s.called - 1).reply == Responded(Answered)
  }

  /** What a completion walk is given. */
  datatype Env = Env(budget: int, timeout: int, longest: int, maxAttempts: nat, vision: bool, pool: Key -> int,
                     script: (nat, set<Key>) -> Turn)

  /** The longest a turn with this endpoint may take. */
  function TurnLimit(env: Env, st: WalkState, turn: Turn): (limit: int)
    requires turn.Call?
  {
    var perAttempt := if turn.commandCode && turn.ceiling > env.timeout then turn.ceiling else env.timeout;
    AttemptShare(env.budget, Left(env.budget, st), st.attempts + 1, Least(perAttempt, env.longest))
  }

  function TurnCalls(env: Env, turn: Turn): (called: nat)
    requires turn.Call?
    ensures 1 <= called <= MaxProxyTries(env.pool(turn.key), false)
  {
    Calls(turn.sends, 0, MaxProxyTries(env.pool(turn.key), turn.commandCode))
  }

  /** Behind the proxy loop: the last reply decides. */
  function AfterReply(env: Env, st: WalkState, turn: Turn, called: nat, now: int): Next
    requires turn.Call? && called > 0
  {
    var key, reply := turn.key, turn.sends(called - 1).reply;
    var verdict := Judge(reply, key in st.flips, st.advanced, env.budget - (now - st.lastProgress), turn.ceiling,
                         turn.draw, turn.again);
    var served := Some(Served(st.attempts, st.tried, key, called, verdict.Flip?));
    match verdict
    case Return(status) => Stop(status, served)
    case Flip => Go(st.(now := now, attempts := st.attempts + 1, flips := st.flips + {key}), served)
    case Advance(pause, hard) =>
      Go(st.(now := now + pause, attempts := st.attempts + 1,
             tried := st.tried + {key} + (if HostFault(reply) then turn.sameHost else {}),
             advanced := st.advanced || hard), served)
  }

  /** A turn that has an endpoint: its share of the budget, the calls, and where that leads. */
  function CallStep(env: Env, st: WalkState, turn: Turn): Next
    requires turn.Call?
  {
    var limit := TurnLimit(env, st, turn);
    if limit <= 0 then Stop(Unavailable503, Some(Served(st.attempts, st.tried, turn.key, 0, false)))
    else
      var called := TurnCalls(env, turn);
      AfterReply(env, st, turn, called, st.now + Least(TimeOf(turn.sends, called), limit))
  }

  /** One turn of handleCompletion's loop. */
  function CompletionStep(env: Env, st: WalkState): (next: Next)
    ensures next.Go? ==> st.attempts < env.maxAttempts && next.st.attempts == st.attempts + 1
  {
    var turn := Offer(env.script, st.attempts, st.tried);
    if turn.Cancelled? then Stop(Unavailable503, None)
    else if st.attempts > 0 && st.now - st.lastProgress > env.budget then Stop(Unavailable503, None)
    else if st.attempts >= env.maxAttempts then Stop(if env.vision then Ok200 else Unavailable503, None)
    else
      match turn
      case Nobody(wait, interruption, draw, hungUp) =>
        WaitStep(env.vision, env.budget, st, wait, interruption, draw, hungUp, Unavailable503)
      case Call(_, _, _, _, _, _, _) => CallStep(env, st, turn)
      case Cancelled => Stop(Unavailable503, None)
  }

  /** The whole walk: the status, and the turns that had an endpoint. */
  function CompletionRun(env: Env, st: WalkState, turns: Turns): (Status, Turns)
    decreases if st.attempts <= env.maxAttempts then env.maxAttempts - st.attempts else 0
  {
    match CompletionStep(env, st)
    case Stop(status, served) => (status, Record(turns, served))
    case Go(next, served) => CompletionRun(env, next, Record(turns, served))
  }

  /** When the calls of a turn are over. */
  function CallsOver(env: Env, st: WalkState, turn: Turn): int
    requires turn.Call?
  {
    var limit := TurnLimit(env, st, turn);
    if limit <= 0 then st.now else st.now + Least(TimeOf(turn.sends, TurnCalls(env, turn)), limit)
  }

  /** The moments of one turn: its start, and the end of its calls. */
  function TurnMoments(env: Env, st: WalkState, trace: Trace): Trace {
    var turn, seen := Offer(env.script, st.attempts, st.tried), Later(trace, Moment(st.now, st.lastProgress, st.attempts));
    if turn.Call? && (st.attempts > 0 ==> st.now - st.lastProgress <= env.budget) && st.attempts < env.maxAttempts then
      Later(seen, Moment(CallsOver(env, st, turn), st.lastProgress, st.attempts + 1))
    else seen
  }

  /** The moments of the whole walk. */
  function CompletionMoments(env: Env, st: WalkState, trace: Trace): Trace
    decreases if st.attempts <= env.maxAttempts then env.maxAttempts - st.attempts else 0
  {
    match CompletionStep(env, st)
    case Stop(_, _) => TurnMoments(env, st, trace)
    case Go(next, _) => CompletionMoments(env, next, TurnMoments(env, st, trace))
  }

  /** A walk that keeps to its budget. */
  predicate Within(budget: int, st: WalkState) { 0 <= st.now - st.lastProgress <= budget }

  /** What a turn with an endpoint keeps. */
  lemma CallStepKeeps(env: Env, st: WalkState, turn: Turn)
    requires turn.Call? && Within(env.budget, st)
    ensures var next := CallStep(env, st, turn);
            && next.served.Some? && next.served.value.attempt == st.attempts && next.served.value.tried == st.tried
            && next.served.value.key == turn.key
            && next.served.value.called <= MaxProxyTries(env.pool(turn.key), false)
            && (next.served.value.flip ==> turn.key !in st.flips)
            && (next.Go? ==>
                 && Within(env.budget, next.st) && next.st.lastProgress == st.lastProgress && st.now <= next.st.now
                 && next.st.attempts == st.attempts + 1
                 && (if next.served.value.flip then next.st.tried == st.tried && next.st.flips == st.flips + {turn.key}
                     else st.tried + {turn.key} <= next.st.tried && next.st.flips == st.flips))
            && (next == Stop(Ok200, next.served) ==>
                 next.served.value.called > 0 &&
                 turn.sends(next.served.value.called - 1).reply == Responded(Answered))
  {
  }

  /** One turn that has an endpoint; `end` is the time behind its calls. */
  method ForwardTurn(walk: BudgetState, env: Env, st: WalkState, turn: Turn) returns (next: Next, end: int)
    requires turn.Call? && walk.budget == env.budget && walk.lastProgress == st.lastProgress
    requires walk.attempts == st.attempts + 1 && Within(env.budget, st)
    ensures next == CallStep(env, st, turn)
    ensures st.now <= end == CallsOver(env, st, turn) && end - st.lastProgress <= env.budget
  {
    var perAttempt := if turn.commandCode && turn.ceiling > env.timeout then turn.ceiling else env.timeout;
    var limit := walk.AttemptTimeout(st.now, Least(perAttempt, env.longest));
    assert limit == TurnLimit(env, st, turn);
    if limit <= 0 {
      return Stop(Unavailable503, Some(Served(st.attempts, st.tried, turn.key, 0, false))), st.now;
    }
    var reply, called;
    end, reply, called := ForwardLoop(st.now, limit, MaxProxyTries(env.pool(turn.key), turn.commandCode), turn.sends);
    CalledUntil(env, st, turn, called, end);
    next := AfterReply(env, st, turn, called, end);
  }

  lemma CalledUntil(env: Env, st: WalkState, turn: Turn, called: nat, end: int)
    requires turn.Call? && TurnLimit(env, st, turn) > 0 && called == TurnCalls(env, turn)
    requires end == st.now + Least(TimeOf(turn.sends, called), TurnLimit(env, st, turn))
    ensures CallStep(env, st, turn) == AfterReply(env, st, turn, called, end)
  {
  }

  /**
   handleCompletion's loop.  Nothing reaches the client before the answer, so the
   whole request is over within the budget; the status is what the client gets.
   */
  method CompletionWalk(walk: BudgetState, env: Env) returns (status: Status, trace: Trace, turns: Turns)
    requires walk.budget == env.budget >= 0 && walk.attempts == 0 && walk.lastProgress == 0
    modifies walk
    ensures (status, turns) == CompletionRun(env, AT_START, Begin)
    ensures trace == CompletionMoments(env, AT_START, Opening)
    ensures Unanswered(trace, env.budget, env.maxAttempts)
  {
    var st := AT_START;
    trace, turns := Opening, Begin;
    while true
      invariant CompletionRun(env, st, turns) == CompletionRun(env, AT_START, Begin)
      invariant CompletionMoments(env, st, trace) == CompletionMoments(env, AT_START, Opening)
      invariant st.attempts == walk.attempts <= env.maxAttempts && st.lastProgress == walk.lastProgress == 0
      invariant 0 <= st.now <= env.budget && Unanswered(trace, env.budget, env.maxAttempts)
      decreases env.maxAttempts - walk.attempts
    {
      ghost var before := trace;
      trace := Later(trace, Moment(st.now, walk.lastProgress, walk.attempts));
      var turn := Offer(env.script, st.attempts, st.tried);
      if turn.Cancelled? {
        return Unavailable503, trace, turns;
      }
      var stop := walk.ExhaustedNow(st.now);
      if stop {
        return Unavailable503, trace, turns;
      }
      if walk.attempts >= env.maxAttempts {
        return if env.vision then Ok200 else Unavailable503, trace, turns;
      }
      walk.Next();
      var next: Next;
      match turn {
        case Nobody(wait, interruption, draw, hungUp) =>
          next := WaitStep(env.vision, walk.budget, st, wait, interruption, draw, hungUp, Unavailable503);
        case Call(_, _, _, _, _, _, _) =>
          var end;
          CallStepKeeps(env, st, turn);
          next, end := ForwardTurn(walk, env, st, turn);
          trace := Later(trace, Moment(end, walk.lastProgress, walk.attempts));
        case Cancelled => assert false;
      }
      assert trace == TurnMoments(env, st, before);
      turns := Record(turns, next.served);
      match next {
        case Stop(answer, _) => return answer, trace, turns;
        case Go(after, _) => st := after;
      }
    }
  }

  /** What the turns of every run keep, and where an answer comes from. */
  lemma {:induction false} CompletionRunFair(env: Env, st: WalkState, turns: Turns, most: Key -> nat)
    requires forall key :: MaxProxyTries(env.pool(key), false) <= most(key)
    requires Untried(env.script) && Within(env.budget, st) && (turns.Then? ==> turns.last.attempt < st.attempts)
    requires Fair(turns, most) && Done(turns) <= st.tried && Flipped(turns) <= st.flips && st.attempts <= env.maxAttempts
    ensures var (status, all) := CompletionRun(env, st, turns);
            && Fair(all, most) && (all.Then? ==> all.last.attempt < env.maxAttempts)
            && (status == Ok200 && !env.vision ==> all.Then? && AnswerFrom(env.script, all.last))
    decreases env.maxAttempts - st.attempts
  {
    var next, turn := CompletionStep(env, st), Offer(env.script, st.attempts, st.tried);
    if turn.Call? && next.served.Some? {
      CallStepKeeps(env, st, turn);
    }
    if next.Go? {
      CompletionRunFair(env, next.st, Record(turns, next.served), most);
    }
  }

  function EnvOf(tokens: int, chainLen: nat, vision: bool, pool: Key -> int, script: (nat, set<Key>) -> Turn): Env {
    Env(Budget(tokens), RequestAttemptTimeout(tokens), AttemptCeiling(tokens), MaxAttempts(chainLen), vision, pool, script)
  }

  /**
   handleCompletion: over within the budget, no more attempts than three a chain entry
   and one, and no endpoint called more often than its proxies allow, twice over.
   */
  method HandleCompletion(tokens: int, chainLen: nat, vision: bool, pool: Key -> int,
                          script: (nat, set<Key>) -> Turn)
    returns (status: Status, trace: Trace, turns: Turns)
    requires Untried(script)
    ensures Unanswered(trace, Budget(tokens), MaxAttempts(chainLen))
    ensures Length(turns) <= MaxAttempts(chainLen)
    ensures forall key :: TurnsOf(turns, key) <= 2 && CallsTo(turns, key) <= 2 * MaxProxyTries(pool(key), false)
    ensures status == Ok200 && !vision ==> turns.Then? && AnswerFrom(script, turns.last)
    ensures (status, turns) == CompletionRun(EnvOf(tokens, chainLen, vision, pool, script), AT_START, Begin)
    ensures trace == CompletionMoments(EnvOf(tokens, chainLen, vision, pool, script), AT_START, Opening)
  {
    BudgetBounds(tokens);
    var timeout := RequestAttemptTimeout(tokens);
    var walk := new BudgetState(0, timeout);
    status, trace, turns :=
      CompletionWalk(walk, EnvOf(tokens, chainLen, vision, pool, script));
    CompletionRunFair(EnvOf(tokens, chainLen, vision, pool, script), AT_START, Begin, MostForwards(pool));
    SoTwiceAtMost(turns, MostForwards(pool));
    FairLength(turns, MostForwards(pool));
  }

  // ----- the streaming walk -----

  /** ProviderMaxInterruption of config.go: positive, and never above the gateway's ceiling. */
  function ProviderMaxInterruption(configured: int): (c: int)
    ensures 0 < c <= MAX_SESSION_INTERRUPTION
  {
    if 0 < configured <= MAX_SESSION_INTERRUPTION then configured else MAX_SESSION_INTERRUPTION
  }

  datatype StreamOutcome =
    | Streamed
    | StreamSaturated
    | ProxyFailed(midStream: bool)
    | ClientGone
    | StreamWrongProtocol
    | StreamFailed(answered: bool)

  /** One call of StreamToClient: the wait for a slot, and the gaps between outputs, the last one up to its return. */
  datatype Try = Try(slot: nat, gaps: seq<nat>, outcome: StreamOutcome)

  datatype StreamTurn =
    | StreamCancelled
    | StreamNobody(wait: int, interruption: int, draw: nat, hungUp: bool)
    | Attempt(key: Key, commandCode: bool, configured: int, sameHost: set<Key>, tries: nat -> Try)

  /** How long the first output, and each later one, may take inside StreamToClient (proxy.go). */
  function FirstOutputLimit(timeout: int, longPrefill: bool): int {
    Least(timeout, if longPrefill then MAX_LARGE_CONTEXT_ATTEMPT_TIMEOUT else MAX_SESSION_INTERRUPTION)
  }

  function IdleLimit(timeout: int, maxIdle: int, streamIdle: int, longPrefill: bool): int {
    var ceiling := if longPrefill then MAX_LARGE_CONTEXT_ATTEMPT_TIMEOUT else MAX_SESSION_INTERRUPTION;
    var first := Least(timeout, ceiling);
    var idle := if maxIdle > 0 then Least(streamIdle, maxIdle) else streamIdle;
    Least(if longPrefill && first > idle then first else idle, ceiling)
  }

  /** What is left of the budget also bounds the watchdog of the attempt. */
  lemma LimitsInsideBudget(timeout: int, ceiling: int, remaining: int, streamIdle: int, longPrefill: bool)
    requires 0 < timeout <= remaining && 0 < ceiling
    ensures FirstOutputLimit(timeout, longPrefill) <= remaining
    ensures IdleLimit(timeout, Least(ceiling, remaining), streamIdle, longPrefill) <= remaining
  {
  }

  const SLOT_WAIT := 250 * MILLISECOND

  /** acquireUpstream: only where upstream calls are capped, and no longer than this. */
  function LongestSlotWait(capped: bool): int { if capped then SLOT_WAIT else 0 }

  function Snapshot(walk: BudgetState, now: int): Moment
    reads walk
  {
    Moment(now, walk.lastProgress, walk.attempts)
  }

  /** The time and the last output behind the gaps from `i` on. */
  function Play(now: int, last: int, gaps: seq<nat>, i: nat, first: int, idle: int): (int, int)
    requires i <= |gaps|
    decreases |gaps| - i
  {
    if i == |gaps| then (now, last)
    else
      var next := now + Least(gaps[i], if i == 0 then first else idle);
      Play(next, if i + 1 < |gaps| then next else last, gaps, i + 1, first, idle)
  }

  /** The moments at which the gaps end. */
  function PlayMoments(now: int, last: int, attempts: nat, gaps: seq<nat>, i: nat, first: int, idle: int, trace: Trace)
    : Trace
    requires i <= |gaps|
    decreases |gaps| - i
  {
    if i == |gaps| then trace
    else
      var next := now + Least(gaps[i], if i == 0 then first else idle);
      PlayMoments(next, if i + 1 < |gaps| then next else last, attempts, gaps, i + 1, first, idle,
                  Later(trace, Moment(next, last, attempts)))
  }

  /**
   StreamToClient as the walk sees it: output marks progress, and no gap outlasts
   its limit.  The slot is waited for before the timer of the attempt starts, so
   that wait comes on top of the budget.
   */
  method PlayTry(walk: BudgetState, start: int, capped: bool, first: int, idle: int, try: Try, sofar: Trace,
                 ghost silence: int, ghost limit: nat)
    returns (now: int, trace: Trace)
    requires 0 <= walk.Silence(start) && 0 <= first && walk.Silence(start) + first <= walk.budget
    requires 0 <= idle <= walk.budget && walk.attempts <= limit
    requires silence == walk.budget + LongestSlotWait(capped) && NeverSilentBeyond(sofar, silence, limit)
    modifies walk`lastProgress
    ensures 0 <= walk.Silence(now) <= silence && start <= now
    ensures NeverSilentBeyond(trace, silence, limit)
    ensures (now, walk.lastProgress) ==
            Play(start + Least(try.slot, LongestSlotWait(capped)), old(walk.lastProgress), try.gaps, 0, first, idle)
    ensures trace == PlayMoments(start + Least(try.slot, LongestSlotWait(capped)), old(walk.lastProgress), walk.attempts,
                                 try.gaps, 0, first, idle, sofar)
    ensures |try.gaps| == 1 ==>
              walk.lastProgress == old(walk.lastProgress) &&
              now == start + Least(try.slot, LongestSlotWait(capped)) + Least(try.gaps[0], first) &&
              trace == Later(sofar, Moment(now, walk.lastProgress, walk.attempts))
  {
    var gaps := try.gaps;
    var began := start + Least(try.slot, LongestSlotWait(capped));
    now := began;
    trace := sofar;
    for i := 0 to |gaps|
      invariant began <= now && 0 <= walk.Silence(now) <= silence
      invariant Play(now, walk.lastProgress, gaps, i, first, idle) ==
                Play(began, old(walk.lastProgress), gaps, 0, first, idle)
      invariant PlayMoments(now, walk.lastProgress, walk.attempts, gaps, i, first, idle, trace) ==
                PlayMoments(began, old(walk.lastProgress), walk.attempts, gaps, 0, first, idle, sofar)
      invariant i == 0 ==> now == began && walk.lastProgress == old(walk.lastProgress)
      invariant i == 1 == |gaps| ==>
                  now == began + Least(gaps[0], first) && walk.lastProgress == old(walk.lastProgress) &&
                  trace == Later(sofar, Moment(now, walk.lastProgress, walk.attempts))
      invariant i == 0 ==> trace == sofar
      invariant 0 < i < |gaps| ==> walk.lastProgress == now
      invariant NeverSilentBeyond(trace, silence, limit)
    {
      now := now + Least(gaps[i], if i == 0 then first else idle);
      trace := Later(trace, Snapshot(walk, now));
      if i + 1 < |gaps| {
        walk.MarkProgress(now);
      }
    }
  }

  /**
   Where upstream calls are capped, the budget is outlasted: for every prompt and every
   wait for a slot there is a run of at most four attempts without output whose last one
   waits, and leaves the client silent for the budget and that wait.
   */
  method SlotWaitOutlastsBudget(tokens: int, chainLen: nat, slot: nat)
    returns (silence: int, trace: Trace, attempts: nat)
    requires chainLen >= 1 && 0 < slot <= SLOT_WAIT
    ensures silence == Budget(tokens) + slot > Budget(tokens)
    ensures trace.Later? && trace.moment.now - trace.moment.lastProgress == silence
    ensures NeverSilentBeyond(trace, Budget(tokens) + SLOT_WAIT, attempts) && attempts <= MaxAttempts(chainLen)
  {
    var preferred := RequestAttemptTimeout(tokens);
    var walk := new BudgetState(0, preferred);
    FourAttemptsFill(tokens);
    silence, trace := SilentAttempts(walk, preferred, AttemptCeiling(tokens), tokens >= LARGE_CONTEXT_TOKENS, slot);
    attempts := walk.attempts;
  }

  /** Attempts without output, each as long as it may be, until one takes all that is left. */
  method SilentAttempts(walk: BudgetState, preferred: int, longest: int, longPrefill: bool, slot: nat)
    returns (silence: int, trace: Trace)
    requires walk.attempts == 0 && walk.lastProgress == 0 && slot <= SLOT_WAIT
    requires 0 < preferred <= walk.budget - walk.budget / 3 && walk.budget <= 4 * preferred
    requires preferred <= longest && FirstOutputLimit(preferred, longPrefill) == preferred
    modifies walk
    ensures silence == walk.budget + slot && walk.attempts <= 4
    ensures trace.Later? && trace.moment.now - trace.moment.lastProgress == silence
    ensures NeverSilentBeyond(trace, walk.budget + SLOT_WAIT, walk.attempts)
  {
    var now := 0;
    ghost var silent := walk.budget + SLOT_WAIT;
    trace := Opening;
    while true
      invariant walk.attempts < 4 && walk.lastProgress == 0
      invariant 0 <= now < walk.budget
      invariant now == match walk.attempts case 0 => 0 case 1 => preferred case 2 => 2 * preferred case _ => 3 * preferred
      invariant NeverSilentBeyond(trace, silent, walk.attempts)
      decreases 4 - walk.attempts
    {
      MoreAttempts(trace, silent, walk.attempts);
      walk.Next();
      var limit := walk.AttemptTimeout(now, Least(preferred, longest));
      var last := limit == walk.Remaining(now);
      now, trace := PlayTry(walk, now, true, FirstOutputLimit(limit, longPrefill), 0,
                            Try(if last then slot else 0, [limit], StreamFailed(false)), trace, silent, walk.attempts);
      if last {
        return walk.Silence(now), trace;
      }
    }
  }

  lemma {:induction false} MoreAttempts(trace: Trace, silence: int, limit: nat)
    requires NeverSilentBeyond(trace, silence, limit)
    ensures NeverSilentBeyond(trace, silence, limit + 1)
  {
    if trace.Later? {
      MoreAttempts(trace.before, silence, limit);
    }
  }

  /** Four attempts use up the budget, and the share kept back from the first one does not shorten it. */
  lemma FourAttemptsFill(tokens: int)
    ensures var preferred, budget := RequestAttemptTimeout(tokens), Budget(tokens);
            && 0 < preferred <= AttemptCeiling(tokens) && preferred <= budget - budget / 3
            && 4 * preferred >= budget >= 12 * SECOND
            && FirstOutputLimit(preferred, tokens >= LARGE_CONTEXT_TOKENS) == preferred
  {
    BudgetBounds(tokens);
    TimeoutBounds(tokens);
  }

  /** A turn calls its endpoint once, and once more directly when a proxy failed it. */
  function StreamMost(pool: int): nat { if pool <= 1 then 1 else 2 }

  function MostStreams(pool: Key -> int): Key -> nat { key => StreamMost(pool(key)) }

  /** What a streaming walk is given. */
  datatype StreamEnv = StreamEnv(budget: int, timeout: int, longest: int, longPrefill: bool, maxAttempts: nat,
                                 vision: bool, streamIdle: nat, capped: bool, pool: Key -> int,
                                 script: (nat, set<Key>) -> StreamTurn)

  /** How long a client may be without output: the budget and, where upstream calls are capped, one wait for a slot. */
  function LongestSilence(env: StreamEnv): int { env.budget + LongestSlotWait(env.capped) }

  /** The end of one attempt: the time, the last output, what came of it, and how many calls it took. */
  datatype Played = Played(now: int, lastProgress: int, outcome: StreamOutcome, called: nat)

  /** One call inside what is left of the budget: the time and the last output behind it, unless no time is left. */
  function TryOnce(env: StreamEnv, now: int, last: int, attempts: nat, ceiling: int, try: Try): Option<(int, int)> {
    var left := env.budget - (now - last);
    var share := AttemptShare(env.budget, left, attempts, Least(env.timeout, ceiling));
    if share <= 0 then None
    else
      Some(Play(now + Least(try.slot, LongestSlotWait(env.capped)), last, try.gaps, 0,
                FirstOutputLimit(share, env.longPrefill),
                IdleLimit(share, Least(ceiling, left), env.streamIdle, env.longPrefill)))
  }

  /** The moments of that call. */
  function TryMoments(env: StreamEnv, now: int, last: int, attempts: nat, ceiling: int, try: Try, trace: Trace): Trace {
    var left := env.budget - (now - last);
    var share := AttemptShare(env.budget, left, attempts, Least(env.timeout, ceiling));
    if share <= 0 then trace
    else
      PlayMoments(now + Least(try.slot, LongestSlotWait(env.capped)), last, attempts, try.gaps, 0,
                  FirstOutputLimit(share, env.longPrefill),
                  IdleLimit(share, Least(ceiling, left), env.streamIdle, env.longPrefill), trace)
  }

  /** The moments of the first call and of the direct one. */
  function TriesMoments(env: StreamEnv, now: int, last: int, attempts: nat, ceiling: int, maxTries: nat,
                        tries: nat -> Try, trace: Trace): Trace
  {
    var first := TryMoments(env, now, last, attempts, ceiling, tries(0), trace);
    match TryOnce(env, now, last, attempts, ceiling, tries(0))
    case None => first
    case Some((end, output)) =>
      if maxTries > 1 && tries(0).outcome == ProxyFailed(false) then
        TryMoments(env, end, output, attempts, ceiling, tries(1), first)
      else first
  }

  /** The first call, and a direct one behind a proxy failure before any output. */
  function PlayTries(env: StreamEnv, now: int, last: int, attempts: nat, ceiling: int, maxTries: nat, tries: nat -> Try)
    : (played: Played)
    ensures played.called <= StreamMost(maxTries)
    ensures played.called == 2 ==> tries(0).outcome == ProxyFailed(false)
    ensures played.outcome == StreamFailed(false) ||
            (played.called > 0 && played.outcome == tries(played.called - 1).outcome)
  {
    match TryOnce(env, now, last, attempts, ceiling, tries(0))
    case None => Played(now, last, StreamFailed(false), 0)
    case Some((end, output)) =>
      if maxTries > 1 && tries(0).outcome == ProxyFailed(false) then
        DirectTry(env, end, output, attempts, ceiling, tries(1))
      else Played(end, output, tries(0).outcome, 1)
  }

  function DirectTry(env: StreamEnv, now: int, last: int, attempts: nat, ceiling: int, try: Try): Played {
    match TryOnce(env, now, last, attempts, ceiling, try)
    case None => Played(now, last, StreamFailed(false), 1)
    case Some((end, output)) => Played(end, output, try.outcome, 2)
  }

  /** One call of StreamToClient, with its options; no call when no time is left. */
  method StreamOnce(walk: BudgetState, env: StreamEnv, start: int, ceiling: int, try: Try, sofar: Trace)
    returns (called: bool, now: int, trace: Trace)
    requires walk.budget == env.budget && 0 <= walk.Silence(start) <= LongestSilence(env)
    requires 0 < ceiling && walk.attempts <= env.maxAttempts
    requires NeverSilentBeyond(sofar, LongestSilence(env), env.maxAttempts)
    modifies walk`lastProgress
    ensures TryOnce(env, start, old(walk.lastProgress), walk.attempts, ceiling, try) ==
            if called then Some((now, walk.lastProgress)) else None
    ensures !called ==> now == start && walk.lastProgress == old(walk.lastProgress)
    ensures trace == TryMoments(env, start, old(walk.lastProgress), walk.attempts, ceiling, try, sofar)
    ensures 0 <= walk.Silence(now) <= LongestSilence(env) && start <= now
    ensures NeverSilentBeyond(trace, LongestSilence(env), env.maxAttempts)
  {
    called, now, trace := false, start, sofar;
    var proxyTimeout := walk.AttemptTimeout(now, Least(env.timeout, ceiling));
    if proxyTimeout <= 0 {
      return;
    }
    called := true;
    var remaining := walk.Remaining(now);
    LimitsInsideBudget(proxyTimeout, ceiling, remaining, env.streamIdle, env.longPrefill);
    now, trace := PlayTry(walk, now, env.capped, FirstOutputLimit(proxyTimeout, env.longPrefill),
                          IdleLimit(proxyTimeout, Least(ceiling, remaining), env.streamIdle, env.longPrefill), try,
                          trace, LongestSilence(env), env.maxAttempts);
  }

  /** The proxy loop of one attempt: after a proxy failure the endpoint is tried once more, directly. */
  method ProxyLoop(walk: BudgetState, env: StreamEnv, start: int, attempts: nat, ceiling: int, maxProxyTries: nat,
                   tries: nat -> Try, sofar: Trace)
    returns (now: int, outcome: StreamOutcome, called: nat, trace: Trace)
    requires walk.budget == env.budget && 0 <= walk.Silence(start) <= walk.budget && 0 < ceiling
    requires maxProxyTries >= 1 && attempts == walk.attempts <= env.maxAttempts
    requires NeverSilentBeyond(sofar, LongestSilence(env), env.maxAttempts)
    modifies walk`lastProgress
    ensures Played(now, walk.lastProgress, outcome, called) ==
            PlayTries(env, start, old(walk.lastProgress), attempts, ceiling, maxProxyTries, tries)
    ensures trace == TriesMoments(env, start, old(walk.lastProgress), attempts, ceiling, maxProxyTries, tries, sofar)
    ensures 0 <= walk.Silence(now) <= LongestSilence(env) && start <= now
    ensures NeverSilentBeyond(trace, LongestSilence(env), env.maxAttempts)
  {
    now, called, trace := start, 0, sofar;
    outcome := StreamFailed(false);
    var directNext := false;
    while called < maxProxyTries
      invariant start <= now && 0 <= walk.Silence(now) <= LongestSilence(env)
      invariant NeverSilentBeyond(trace, LongestSilence(env), env.maxAttempts)
      invariant called == if directNext then 1 else 0
      invariant !directNext ==> now == start && walk.lastProgress == old(walk.lastProgress)
      invariant directNext ==>
                  outcome == tries(0).outcome == ProxyFailed(false) &&
                  TryOnce(env, start, old(walk.lastProgress), attempts, ceiling, tries(0)) ==
                  Some((now, walk.lastProgress))
      invariant directNext ==>
                  trace == TryMoments(env, start, old(walk.lastProgress), attempts, ceiling, tries(0), sofar)
      invariant !directNext ==> trace == sofar
      decreases maxProxyTries - called
    {
      var done;
      done, now, trace := StreamOnce(walk, env, now, ceiling, tries(called), trace);
      if !done {
        outcome := StreamFailed(false);
        return;
      }
      outcome := tries(called).outcome;
      called := called + 1;
      if !outcome.ProxyFailed? || outcome.midStream || directNext {
        return;
      }
      directNext := true;
    }
  }

  /** handleStream behind its proxy loop; it never pauses between attempts. */
  function StreamJudge(outcome: StreamOutcome, flipped: bool): (v: Verdict)
    ensures v.Return? ==> v.status != BadGateway502
    ensures v.Flip? ==> !flipped && outcome.StreamWrongProtocol?
  {
    match outcome
    case Streamed => Return(Ok200)
    case StreamSaturated => Return(Unavailable503)
    case ClientGone => Return(ClientGone499)
    case StreamWrongProtocol => if flipped then Advance(0, false) else Flip
    case _ => Advance(0, false)
  }

  function StreamOffer(script: (nat, set<Key>) -> StreamTurn, attempt: nat, tried: set<Key>): StreamTurn {
    script(attempt, tried)
  }

  ghost predicate StreamUntried(script: (nat, set<Key>) -> StreamTurn) {
    forall n, tried :: StreamOffer(script, n, tried).Attempt? ==> StreamOffer(script, n, tried).key !in tried
  }

  predicate StreamFrom(script: (nat, set<Key>) -> StreamTurn, s: Served) {
    var turn := script(s.attempt, s.tried);
    turn.Attempt? && turn.key == s.key && s.called > 0 && turn.tries(s.called - 1).outcome == Streamed
  }

  /** What an endpoint of the provider may take in silence; a large context gets at least its timeout. */
  function TurnCeiling(env: StreamEnv, configured: int): (ceiling: int)
    ensures ceiling > 0
  {
    var ceiling := ProviderMaxInterruption(configured);
    if env.longPrefill && ceiling < env.timeout then env.timeout else ceiling
  }

  /** Whether any time is left for the attempt. */
  predicate MayAttempt(env: StreamEnv, st: WalkState, turn: StreamTurn)
    requires turn.Attempt?
  {
    var ceiling := TurnCeiling(env, turn.configured);
    var perAttempt := if turn.commandCode && ceiling > env.timeout then ceiling else env.timeout;
    AttemptShare(env.budget, Left(env.budget, st), st.attempts + 1, Least(perAttempt, env.longest)) > 0
  }

  function PlayedTurn(env: StreamEnv, st: WalkState, turn: StreamTurn): Played
    requires turn.Attempt?
  {
    PlayTries(env, st.now, st.lastProgress, st.attempts + 1, TurnCeiling(env, turn.configured),
              MaxProxyTries(env.pool(turn.key), turn.commandCode), turn.tries)
  }

  function PlayedMoments(env: StreamEnv, st: WalkState, turn: StreamTurn, trace: Trace): Trace
    requires turn.Attempt?
  {
    TriesMoments(env, st.now, st.lastProgress, st.attempts + 1, TurnCeiling(env, turn.configured),
                 MaxProxyTries(env.pool(turn.key), turn.commandCode), turn.tries, trace)
  }

  function AfterPlayed(st: WalkState, turn: StreamTurn, played: Played): Next
    requires turn.Attempt?
  {
    var key := turn.key;
    var verdict := StreamJudge(played.outcome, key in st.flips);
    var served := Some(Served(st.attempts, st.tried, key, played.called, verdict.Flip?));
    var after := st.(now := played.now, lastProgress := played.lastProgress, attempts := st.attempts + 1);
    match verdict
    case Return(status) => Stop(status, served)
    case Flip => Go(after.(flips := st.flips + {key}), served)
    case Advance(_, _) =>
      Go(after.(tried := st.tried + {key} + if played.outcome == StreamFailed(false) then turn.sameHost else {}), served)
  }

  /** A turn of the streaming loop that has an endpoint. */
  function AttemptStep(env: StreamEnv, st: WalkState, turn: StreamTurn): Next
    requires turn.Attempt?
  {
    if !MayAttempt(env, st, turn) then Stop(Unavailable503, Some(Served(st.attempts, st.tried, turn.key, 0, false)))
    else AfterPlayed(st, turn, PlayedTurn(env, st, turn))
  }

  /** One turn of handleStream's loop. */
  function StreamStep(env: StreamEnv, st: WalkState): (next: Next)
    ensures next.Go? ==> st.attempts < env.maxAttempts && next.st.attempts == st.attempts + 1
  {
    var turn := StreamOffer(env.script, st.attempts, st.tried);
    if st.attempts > 0 && st.now - st.lastProgress > env.budget then Stop(Unavailable503, None)
    else if turn.StreamCancelled? then Stop(ClientGone499, None)
    else if st.attempts >= env.maxAttempts then Stop(if env.vision then Ok200 else Unavailable503, None)
    else
      match turn
      case StreamNobody(wait, interruption, draw, hungUp) =>
        WaitStep(env.vision, env.budget, st, wait, interruption, draw, hungUp, ClientGone499)
      case Attempt(_, _, _, _, _) => AttemptStep(env, st, turn)
      case StreamCancelled => Stop(ClientGone499, None)
  }

  /** The whole walk: the status, and the turns that had an endpoint. */
  function StreamRun(env: StreamEnv, st: WalkState, turns: Turns): (Status, Turns)
    decreases if st.attempts <= env.maxAttempts then env.maxAttempts - st.attempts else 0
  {
    match StreamStep(env, st)
    case Stop(status, served) => (status, Record(turns, served))
    case Go(next, served) => StreamRun(env, next, Record(turns, served))
  }

  /** The moments of one turn: its start, and the end of every gap between outputs. */
  function StreamTurnMoments(env: StreamEnv, st: WalkState, trace: Trace): Trace {
    var turn, seen := StreamOffer(env.script, st.attempts, st.tried),
                      Later(trace, Moment(st.now, st.lastProgress, st.attempts));
    if turn.Attempt? && (st.attempts > 0 ==> st.now - st.lastProgress <= env.budget) && st.attempts < env.maxAttempts
       && MayAttempt(env, st, turn)
    then PlayedMoments(env, st, turn, seen) else seen
  }

  /** The moments of the whole walk. */
  function StreamMoments(env: StreamEnv, st: WalkState, trace: Trace): Trace
    decreases if st.attempts <= env.maxAttempts then env.maxAttempts - st.attempts else 0
  {
    match StreamStep(env, st)
    case Stop(_, _) => StreamTurnMoments(env, st, trace)
    case Go(next, _) => StreamMoments(env, next, StreamTurnMoments(env, st, trace))
  }

  /** One turn of the streaming loop that has an endpoint. */
  method StreamTurnOf(walk: BudgetState, env: StreamEnv, st: WalkState, turn: StreamTurn, sofar: Trace)
    returns (next: Next, trace: Trace)
    requires turn.Attempt? && walk.budget == env.budget && walk.lastProgress == st.lastProgress
    requires walk.attempts == st.attempts + 1 <= env.maxAttempts && Within(env.budget, st)
    requires NeverSilentBeyond(sofar, LongestSilence(env), env.maxAttempts)
    modifies walk`lastProgress
    ensures next == AttemptStep(env, st, turn)
    ensures trace == if MayAttempt(env, st, turn) then PlayedMoments(env, st, turn, sofar) else sofar
    ensures next.Go? ==> walk.lastProgress == next.st.lastProgress && next.st.attempts == walk.attempts
    ensures next.Go? ==> 0 <= walk.Silence(next.st.now) <= LongestSilence(env)
    ensures NeverSilentBeyond(trace, LongestSilence(env), env.maxAttempts)
  {
    trace := sofar;
    var ceiling := TurnCeiling(env, turn.configured);
    var perAttempt := if turn.commandCode && ceiling > env.timeout then ceiling else env.timeout;
    var share := walk.AttemptTimeout(st.now, Least(perAttempt, env.longest));
    assert share > 0 <==> MayAttempt(env, st, turn);
    if share <= 0 {
      next := Stop(Unavailable503, Some(Served(st.attempts, st.tried, turn.key, 0, false)));
      return;
    }
    var now, outcome, called;
    now, outcome, called, trace :=
      ProxyLoop(walk, env, st.now, st.attempts + 1, ceiling, MaxProxyTries(env.pool(turn.key), turn.commandCode),
                turn.tries, trace);
    assert Played(now, walk.lastProgress, outcome, called) == PlayedTurn(env, st, turn);
    next := AfterPlayed(st, turn, Played(now, walk.lastProgress, outcome, called));
  }

  /** What a turn with an endpoint keeps. */
  lemma AttemptStepKeeps(env: StreamEnv, st: WalkState, turn: StreamTurn)
    requires turn.Attempt?
    ensures var next := AttemptStep(env, st, turn);
            && next.served.Some? && next.served.value.attempt == st.attempts && next.served.value.tried == st.tried
            && next.served.value.key == turn.key && (next.served.value.flip ==> turn.key !in st.flips)
            && next.served.value.called <= StreamMost(env.pool(turn.key))
            && (next.Stop? ==> !next.status.BadGateway502? && !next.served.value.flip)
            && (next == Stop(Ok200, next.served) ==>
                 next.served.value.called > 0 && turn.tries(next.served.value.called - 1).outcome == Streamed)
            && (next.Go? ==>
                  if next.served.value.flip then next.st.tried == st.tried && next.st.flips == st.flips + {turn.key}
                  else st.tried + {turn.key} <= next.st.tried && next.st.flips == st.flips)
  {
  }

  /**
   handleStream's loop: the client may be served for hours, but is never silent
   beyond the budget and, where upstream calls are capped, one wait for a slot.
   */
  method StreamWalk(walk: BudgetState, env: StreamEnv) returns (status: Status, trace: Trace, turns: Turns)
    requires walk.budget == env.budget >= 0 && walk.attempts == 0 && walk.lastProgress == 0
    modifies walk
    ensures (status, turns) == StreamRun(env, AT_START, Begin)
    ensures trace == StreamMoments(env, AT_START, Opening)
    ensures NeverSilentBeyond(trace, LongestSilence(env), env.maxAttempts)
  {
    var st := AT_START;
    trace, turns := Opening, Begin;
    while true
      invariant StreamRun(env, st, turns) == StreamRun(env, AT_START, Begin)
      invariant StreamMoments(env, st, trace) == StreamMoments(env, AT_START, Opening)
      invariant st.attempts == walk.attempts <= env.maxAttempts && st.lastProgress == walk.lastProgress
      invariant 0 <= st.now - st.lastProgress <= LongestSilence(env)
      invariant st.attempts == 0 ==> st.now == st.lastProgress
      invariant NeverSilentBeyond(trace, LongestSilence(env), env.maxAttempts)
      decreases env.maxAttempts - walk.attempts
    {
      ghost var before := trace;
      trace := Later(trace, Snapshot(walk, st.now));
      var stop := walk.ExhaustedNow(st.now);
      if stop {
        return Unavailable503, trace, turns;
      }
      var turn := StreamOffer(env.script, st.attempts, st.tried);
      if turn.StreamCancelled? {
        return ClientGone499, trace, turns;
      }
      if walk.attempts >= env.maxAttempts {
        return if env.vision then Ok200 else Unavailable503, trace, turns;
      }
      walk.Next();
      var next: Next;
      match turn {
        case StreamNobody(wait, interruption, draw, hungUp) =>
          next := WaitStep(env.vision, walk.budget, st, wait, interruption, draw, hungUp, ClientGone499);
        case Attempt(_, _, _, _, _) =>
          next, trace := StreamTurnOf(walk, env, st, turn, trace);
        case StreamCancelled => assert false;
      }
      assert trace == StreamTurnMoments(env, st, before);
      turns := Record(turns, next.served);
      match next {
        case Stop(answer, _) => return answer, trace, turns;
        case Go(after, _) => st := after;
      }
    }
  }

  /** What the turns of every run keep, and where a stream that ends well comes from. */
  lemma {:induction false} StreamRunFair(env: StreamEnv, st: WalkState, turns: Turns, most: Key -> nat)
    requires forall key :: StreamMost(env.pool(key)) <= most(key)
    requires StreamUntried(env.script) && (turns.Then? ==> turns.last.attempt < st.attempts)
    requires Fair(turns, most) && Done(turns) <= st.tried && Flipped(turns) <= st.flips && st.attempts <= env.maxAttempts
    ensures var (status, all) := StreamRun(env, st, turns);
            && Fair(all, most) && (all.Then? ==> all.last.attempt < env.maxAttempts) && !status.BadGateway502?
            && (status == Ok200 && !env.vision ==> all.Then? && StreamFrom(env.script, all.last))
    decreases env.maxAttempts - st.attempts
  {
    var next, turn := StreamStep(env, st), StreamOffer(env.script, st.attempts, st.tried);
    if turn.Attempt? && next.served.Some? {
      AttemptStepKeeps(env, st, turn);
    }
    if next.Go? {
      StreamRunFair(env, next.st, Record(turns, next.served), most);
    }
  }

  function StreamEnvOf(tokens: int, chainLen: nat, vision: bool, streamIdle: nat, capped: bool, pool: Key -> int,
                       script: (nat, set<Key>) -> StreamTurn): StreamEnv
  {
    StreamEnv(Budget(tokens), RequestAttemptTimeout(tokens), AttemptCeiling(tokens), tokens >= LARGE_CONTEXT_TOKENS,
              MaxAttempts(chainLen), vision, streamIdle, capped, pool, script)
  }

  /**
   handleStream: with the same bounds on attempts, and no endpoint called more than
   four times, twice without a proxy.
   */
  method HandleStream(tokens: int, chainLen: nat, vision: bool, streamIdle: nat, capped: bool, pool: Key -> int,
                      script: (nat, set<Key>) -> StreamTurn)
    returns (status: Status, trace: Trace, turns: Turns)
    requires StreamUntried(script)
    ensures NeverSilentBeyond(trace, Budget(tokens) + LongestSlotWait(capped), MaxAttempts(chainLen))
    ensures Length(turns) <= MaxAttempts(chainLen)
    ensures forall key :: TurnsOf(turns, key) <= 2 && CallsTo(turns, key) <= if pool(key) <= 1 then 2 else 4
    ensures status == Ok200 && !vision ==> turns.Then? && StreamFrom(script, turns.last)
    ensures (status, turns) ==
            StreamRun(StreamEnvOf(tokens, chainLen, vision, streamIdle, capped, pool, script), AT_START, Begin)
    ensures trace ==
            StreamMoments(StreamEnvOf(tokens, chainLen, vision, streamIdle, capped, pool, script), AT_START, Opening)
    ensures !status.BadGateway502?
  {
    BudgetBounds(tokens);
    TimeoutBounds(tokens);
    var timeout := RequestAttemptTimeout(tokens);
    var walk := new BudgetState(0, timeout);
    status, trace, turns :=
      StreamWalk(walk, StreamEnvOf(tokens, chainLen, vision, streamIdle, capped, pool, script));
    StreamRunFair(StreamEnvOf(tokens, chainLen, vision, streamIdle, capped, pool, script), AT_START, Begin,
                  MostStreams(pool));
    SoTwiceAtMost(turns, MostStreams(pool));
    FairLength(turns, MostStreams(pool));
  }
}
