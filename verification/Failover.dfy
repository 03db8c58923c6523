/**
 What ends a fallback walk of api.go, and what never does: the exact condition for each
 status, stated of the replies themselves, and the failover that follows from it.
 */
module Failover {
  import opened Text
  import opened Fallback

  // ----- the completion walk: one turn -----

  /** What every request brings along: time to spend. */
  predicate Sane(env: Env) { env.budget > 1 && env.timeout > 0 && env.longest > 0 }

  function TurnAt(env: Env, st: WalkState): Turn { env.script(st.attempts, st.tried) }

  /** The silence has outlasted the budget, which ends every walk but one that has not started. */
  predicate Spent(budget: int, st: WalkState) { st.attempts > 0 && st.now - st.lastProgress > budget }

  /** Neither the router, the budget nor the limit of attempts ends the walk here. */
  predicate Open(env: Env, st: WalkState) {
    !TurnAt(env, st).Cancelled? && !Spent(env.budget, st) && st.attempts < env.maxAttempts
  }

  /** An endpoint is called. */
  predicate Calling(env: Env, st: WalkState) {
    Open(env, st) && TurnAt(env, st).Call? && st.now - st.lastProgress < env.budget
  }

  /** `reply` is that of the first call that does not fail at its proxy, or of the last one allowed. */
  ghost predicate EndsTurn(env: Env, turn: Turn, reply: Reply) {
    turn.Call? &&
    exists n :: LastCall(turn.sends, if turn.commandCode || env.pool(turn.key) <= 0 then 1 else env.pool(turn.key), n) &&
                turn.sends(n).reply == reply
  }

  predicate LastCall(sends: nat -> Sent, tries: nat, n: nat) {
    && n < tries && (forall i :: 0 <= i < n ==> sends(i).reply == ProxyDown)
    && (sends(n).reply == ProxyDown ==> n == tries - 1)
  }

  /** The calls that were made are these. */
  lemma {:induction false} CallsEnd(sends: nat -> Sent, i: nat, tries: nat, n: nat)
    requires i < tries && forall k :: 0 <= k < i ==> sends(k).reply == ProxyDown
    ensures LastCall(sends, tries, n) <==> n == Calls(sends, i, tries) - 1
    decreases tries - i
  {
    if sends(i).reply.ProxyDown? && i + 1 < tries {
      CallsEnd(sends, i + 1, tries, n);
    }
  }

  lemma TurnEnds(env: Env, turn: Turn, reply: Reply)
    requires turn.Call?
    ensures EndsTurn(env, turn, reply) <==> turn.sends(TurnCalls(env, turn) - 1).reply == reply
  {
    var tries := if turn.commandCode || env.pool(turn.key) <= 0 then 1 else env.pool(turn.key);
    forall n: nat
      ensures LastCall(turn.sends, tries, n) <==> n == TurnCalls(env, turn) - 1
    {
      CallsEnd(turn.sends, 0, tries, n);
    }
    if turn.sends(TurnCalls(env, turn) - 1).reply == reply {
      assert LastCall(turn.sends, tries, TurnCalls(env, turn) - 1);
    }
  }

  /** Failures another endpoint may make up for. */
  predicate Transient(reply: Reply, advanced: bool) {
    match reply
    case ProxyDown => true
    case EndpointDown(_) => true
    case Responded(BadBody(_)) => true
    case Responded(WrongProtocol) => true
    case Responded(Refused(retryable, _)) => retryable || !advanced
    case _ => false
  }

  function EndOf(next: Next): Option<Status> { if next.Stop? then Some(next.status) else None }

  ghost predicate Replies(env: Env, st: WalkState, reply: Reply) {
    Calling(env, st) && EndsTurn(env, TurnAt(env, st), reply)
  }

  /** The router gives up on the request, or nobody is on offer and no cooldown ends inside what is left of it. */
  predicate GivesUp(env: Env, st: WalkState) {
    var turn := TurnAt(env, st);
    || turn.Cancelled?
    || (!turn.Cancelled? && Spent(env.budget, st))
    || (!turn.Cancelled? && !Spent(env.budget, st) && st.attempts >= env.maxAttempts && !env.vision)
    || (Open(env, st) && turn.Nobody? && !env.vision &&
        (turn.wait <= 0 || turn.wait >= env.budget - (st.now - st.lastProgress) || turn.hungUp))
    || (Open(env, st) && turn.Call? && st.now - st.lastProgress >= env.budget)
  }

  /** The answer that a request with images gets instead. */
  predicate VisionReply(env: Env, st: WalkState) {
    var turn := TurnAt(env, st);
    env.vision && !turn.Cancelled? && !Spent(env.budget, st) && (st.attempts >= env.maxAttempts || turn.Nobody?)
  }

  /** A turn whose calls were made ends the walk exactly on these replies. */
  lemma ReplyEnds(env: Env, st: WalkState, reply: Reply)
    requires Sane(env) && Replies(env, st, reply)
    ensures EndOf(CompletionStep(env, st)) ==
            match reply
            case Responded(Answered) => Some(Ok200)
            case Responded(WriteFailed) => Some(ClientGone499)
            case ClientCanceled => Some(ClientGone499)
            case Saturated => Some(Unavailable503)
            case Responded(Refused(false, _)) => if st.advanced then Some(BadGateway502) else None
            case _ => None
    ensures Transient(reply, st.advanced) ==> CompletionStep(env, st).Go?
  {
    TurnEnds(env, TurnAt(env, st), reply);
    ShareLeft(env, st);
    StepIsCall(env, st);
  }

  lemma ShareLeft(env: Env, st: WalkState)
    requires Sane(env) && TurnAt(env, st).Call?
    ensures TurnLimit(env, st, TurnAt(env, st)) > 0 <==> st.now - st.lastProgress < env.budget
  {
  }

  lemma StepIsCall(env: Env, st: WalkState)
    requires Open(env, st) && TurnAt(env, st).Call?
    ensures CompletionStep(env, st) == CallStep(env, st, TurnAt(env, st))
  {
  }

  /** Without a call, the walk ends exactly when it gives up or answers for the images. */
  lemma UncalledEnds(env: Env, st: WalkState)
    requires Sane(env) && !Calling(env, st)
    ensures EndOf(CompletionStep(env, st)) ==
            if VisionReply(env, st) then Some(Ok200) else if GivesUp(env, st) then Some(Unavailable503) else None
  {
    if Open(env, st) && TurnAt(env, st).Call? {
      ShareLeft(env, st);
      StepIsCall(env, st);
    }
  }

  lemma SomeReply(env: Env, st: WalkState) returns (reply: Reply)
    requires Calling(env, st)
    ensures Replies(env, st, reply)
    ensures forall other :: Replies(env, st, other) ==> other == reply
  {
    var turn := TurnAt(env, st);
    reply := turn.sends(TurnCalls(env, turn) - 1).reply;
    TurnEnds(env, turn, reply);
    forall other | Replies(env, st, other)
      ensures other == reply
    {
      TurnEnds(env, turn, other);
    }
  }

  /** The walk stops here with this status. */
  ghost predicate StopsWith(env: Env, st: WalkState, status: Status) {
    match status
    case Ok200 => Replies(env, st, Responded(Answered)) || VisionReply(env, st)
    case ClientGone499 => Replies(env, st, ClientCanceled) || Replies(env, st, Responded(WriteFailed))
    case BadGateway502 =>
      st.advanced &&
      (Replies(env, st, Responded(Refused(false, false))) || Replies(env, st, Responded(Refused(false, true))))
    case Unavailable503 => GivesUp(env, st) || Replies(env, st, Saturated)
  }

  /** The exact condition for each status, turn by turn. */
  lemma StepStops(env: Env, st: WalkState, status: Status)
    requires Sane(env)
    ensures EndOf(CompletionStep(env, st)) == Some(status) <==> StopsWith(env, st, status)
  {
    if Calling(env, st) {
      var reply := SomeReply(env, st);
      ReplyEnds(env, st, reply);
    } else {
      UncalledEnds(env, st);
    }
  }

  /** What a failed turn changes, by its reply: who is left out from here on, and who refused what. */
  lemma StepMoves(env: Env, st: WalkState, reply: Reply)
    requires Sane(env) && Replies(env, st, reply) && Transient(reply, st.advanced)
    ensures var turn, next := TurnAt(env, st), CompletionStep(env, st);
            var refuses := reply == Responded(WrongProtocol) && turn.key !in st.flips;
            var host := reply == EndpointDown(false) || reply == Responded(BadBody(true));
            && next.Go? && next.st.attempts == st.attempts + 1 && next.st.lastProgress == st.lastProgress
            && next.st.tried == st.tried + (if refuses then {} else {turn.key}) + (if host then turn.sameHost else {})
            && next.st.flips == st.flips + (if refuses then {turn.key} else {})
            && st.now <= next.st.now
            && (Lost(reply) ==> next.st.now <= st.now + TimeOf(turn.sends, TurnCalls(env, turn)))
            && (next.st.advanced <==>
                st.advanced || reply in {Responded(Refused(false, false)), Responded(Refused(false, true))})
  {
    TurnEnds(env, TurnAt(env, st), reply);
    ShareLeft(env, st);
    StepIsCall(env, st);
  }

  // ----- the completion walk: whole runs -----

  /** Where the walk stands after n turns, if it got that far. */
  function After(env: Env, st: WalkState, n: nat): Option<WalkState>
    decreases n
  {
    if n == 0 then Some(st)
    else
      match CompletionStep(env, st)
      case Stop(_, _) => None
      case Go(next, _) => After(env, next, n - 1)
  }

  ghost predicate StopsAfter(env: Env, st: WalkState, n: nat, status: Status) {
    After(env, st, n).Some? && StopsWith(env, After(env, st, n).value, status)
  }

  lemma {:induction false} RunStopsSomewhere(env: Env, st: WalkState, turns: Turns) returns (n: nat)
    requires Sane(env) && st.attempts <= env.maxAttempts
    ensures StopsAfter(env, st, n, CompletionRun(env, st, turns).0)
    decreases env.maxAttempts - st.attempts
  {
    match CompletionStep(env, st) {
      case Stop(status, _) =>
        StepStops(env, st, status);
        n := 0;
      case Go(next, served) =>
        n := RunStopsSomewhere(env, next, Record(turns, served));
        n := n + 1;
    }
  }

  /** A run goes where its turns lead: it ends with the turn that stops it. */
  lemma {:induction false} RunReaches(env: Env, st: WalkState, turns: Turns, n: nat)
    requires After(env, st, n).Some? && CompletionStep(env, After(env, st, n).value).Stop?
    ensures var last, (status, all) := CompletionStep(env, After(env, st, n).value), CompletionRun(env, st, turns);
            status == last.status && (last.served.Some? ==> all.Then? && all.last == last.served.value)
    decreases n
  {
    if n > 0 {
      var next := CompletionStep(env, st);
      RunReaches(env, next.st, Record(turns, next.served), n - 1);
    }
  }

  lemma RunStopsThere(env: Env, st: WalkState, turns: Turns, n: nat, status: Status)
    requires Sane(env) && StopsAfter(env, st, n, status)
    ensures CompletionRun(env, st, turns).0 == status
  {
    StepStops(env, After(env, st, n).value, status);
    RunReaches(env, st, turns, n);
  }

  /** A run ends with a status exactly when some turn it gets to meets the condition for it. */
  lemma RunEndsWith(env: Env, status: Status)
    requires Sane(env)
    ensures CompletionRun(env, AT_START, Begin).0 == status <==> exists n: nat :: StopsAfter(env, AT_START, n, status)
  {
    var n := RunStopsSomewhere(env, AT_START, Begin);
    if m: nat :| StopsAfter(env, AT_START, m, status) {
      RunStopsThere(env, AT_START, Begin, m, status);
    }
  }

  // ----- failing over -----

  /** The turn fails in a way another endpoint may make up for. */
  ghost predicate Fails(env: Env, st: WalkState) { exists reply :: Replies(env, st, reply) && Transient(reply, st.advanced) }

  /** The next n turns fail, and the one behind them answers. */
  ghost predicate AnswersAfter(env: Env, st: WalkState, n: nat)
    decreases n
  {
    if n == 0 then Replies(env, st, Responded(Answered))
    else Fails(env, st) && (CompletionStep(env, st).Go? ==> AnswersAfter(env, CompletionStep(env, st).st, n - 1))
  }

  lemma {:induction false} FailsThenAnswers(env: Env, st: WalkState, n: nat)
    requires Sane(env) && AnswersAfter(env, st, n)
    ensures After(env, st, n).Some? && After(env, st, n).value.attempts == st.attempts + n
    ensures Replies(env, After(env, st, n).value, Responded(Answered))
    decreases n
  {
    if n > 0 {
      FailedGoesOn(env, st);
      FailsThenAnswers(env, CompletionStep(env, st).st, n - 1);
    }
  }

  /** However many endpoints fail, an answer inside budget and attempts reaches the client, from that turn. */
  lemma FailsOver(env: Env, st: WalkState, turns: Turns, n: nat)
    requires Sane(env) && AnswersAfter(env, st, n)
    ensures var (status, all) := CompletionRun(env, st, turns);
            && status == Ok200 && all.Then? && all.last.attempt == st.attempts + n
            && AnswerFrom(env.script, all.last)
  {
    FailsThenAnswers(env, st, n);
    AnswerEnds(env, After(env, st, n).value);
    RunReaches(env, st, turns, n);
  }

  lemma FailedGoesOn(env: Env, st: WalkState)
    requires Sane(env) && Fails(env, st)
    ensures CompletionStep(env, st).Go? && CompletionStep(env, st).st.attempts == st.attempts + 1
  {
    var reply :| Replies(env, st, reply) && Transient(reply, st.advanced);
    ReplyEnds(env, st, reply);
  }

  lemma AnswerEnds(env: Env, st: WalkState)
    requires Sane(env) && Replies(env, st, Responded(Answered))
    ensures var next := CompletionStep(env, st);
            && next == Stop(Ok200, next.served) && next.served.Some? && next.served.value.attempt == st.attempts
            && AnswerFrom(env.script, next.served.value)
  {
    TurnEnds(env, TurnAt(env, st), Responded(Answered));
    ShareLeft(env, st);
    StepIsCall(env, st);
  }

  function Firsts(keys: seq<Key>, n: nat): set<Key>
    requires n <= |keys|
  {
    if n == 0 then {} else Firsts(keys, n - 1) + {keys[n - 1]}
  }

  function Total(times: seq<nat>, n: nat): nat
    requires n <= |times|
  {
    if n == 0 then 0 else Total(times, n - 1) + times[n - 1]
  }

  /** Offer i is the i-th key, called once, for so long, and with this reply. */
  predicate Offers(env: Env, keys: seq<Key>, times: seq<nat>, i: nat, reply: Reply)
    requires i < |keys| == |times|
  {
    var turn := env.script(i, Firsts(keys, i));
    && turn.Call? && turn.key == keys[i] && turn.sameHost == {} && (turn.commandCode || env.pool(keys[i]) <= 1)
    && turn.sends(0) == Sent(times[i], reply)
  }

  /** The endpoint is down, its proxy is, or its body is no answer. */
  predicate Lost(reply: Reply) { reply.ProxyDown? || reply.EndpointDown? || (reply.Responded? && reply.response.BadBody?) }

  /** From offer i on every endpoint is lost, and the last one answers. */
  predicate LostThenAnswered(env: Env, keys: seq<Key>, times: seq<nat>, replies: seq<Reply>, i: nat)
    requires i <= |replies| && |keys| == |times| == |replies| + 1
    decreases |replies| - i
  {
    if i == |replies| then Offers(env, keys, times, i, Responded(Answered))
    else Lost(replies[i]) && Offers(env, keys, times, i, replies[i]) && LostThenAnswered(env, keys, times, replies, i + 1)
  }

  /**
   For one: endpoints that are offered in turn and are lost, one call each, in less than
   the budget altogether, and one behind them that answers: the client gets its answer.
   */
  lemma OffersFailOver(env: Env, keys: seq<Key>, times: seq<nat>, replies: seq<Reply>)
    requires Sane(env) && 0 < |keys| == |times| == |replies| + 1 <= env.maxAttempts
    requires LostThenAnswered(env, keys, times, replies, 0) && Total(times, |replies|) < env.budget
    ensures var (status, all) := CompletionRun(env, AT_START, Begin);
            status == Ok200 && all.Then? && all.last.attempt == |replies| && AnswerFrom(env.script, all.last)
  {
    var n := |replies|;
    OffersAnswer(env, keys, times, replies, AT_START, n);
    FailsOver(env, AT_START, Begin, n);
  }

  lemma {:induction false} OffersAnswer(env: Env, keys: seq<Key>, times: seq<nat>, replies: seq<Reply>, st: WalkState,
                                       n: nat)
    requires Sane(env) && 0 < |keys| == |times| == |replies| + 1 <= env.maxAttempts
    requires st.attempts <= |replies| && LostThenAnswered(env, keys, times, replies, st.attempts)
    requires Total(times, |replies|) < env.budget
    requires st.attempts + n == |replies| && st.tried == Firsts(keys, st.attempts) && st.lastProgress == 0
    requires 0 <= st.now <= Total(times, st.attempts)
    ensures AnswersAfter(env, st, n)
    decreases n
  {
    TotalGrows(times, st.attempts, |replies|);
    if n == 0 {
      OfferReplies(env, keys, times, Responded(Answered), st);
    } else {
      OfferLost(env, keys, times, replies[st.attempts], st);
      OffersAnswer(env, keys, times, replies, CompletionStep(env, st).st, n - 1);
    }
  }

  lemma OfferLost(env: Env, keys: seq<Key>, times: seq<nat>, reply: Reply, st: WalkState)
    requires Sane(env) && Lost(reply) && st.attempts < |keys| == |times| && st.attempts < env.maxAttempts
    requires st.tried == Firsts(keys, st.attempts) && st.lastProgress == 0 && 0 <= st.now < env.budget
    requires Offers(env, keys, times, st.attempts, reply)
    ensures Fails(env, st)
    ensures var next := CompletionStep(env, st);
            && next.Go? && next.st.attempts == st.attempts + 1 && next.st.tried == Firsts(keys, st.attempts + 1)
            && next.st.lastProgress == 0 && st.now <= next.st.now <= st.now + times[st.attempts]
  {
    OfferReplies(env, keys, times, reply, st);
    StepMoves(env, st, reply);
    OneCall(env, TurnAt(env, st));
  }

  lemma OfferReplies(env: Env, keys: seq<Key>, times: seq<nat>, reply: Reply, st: WalkState)
    requires st.attempts < |keys| == |times| && st.attempts < env.maxAttempts && st.tried == Firsts(keys, st.attempts)
    requires 0 <= st.now - st.lastProgress < env.budget && Offers(env, keys, times, st.attempts, reply)
    ensures Replies(env, st, reply)
  {
    OneCall(env, TurnAt(env, st));
    TurnEnds(env, TurnAt(env, st), reply);
  }

  lemma OneCall(env: Env, turn: Turn)
    requires turn.Call? && (turn.commandCode || env.pool(turn.key) <= 1)
    ensures TurnCalls(env, turn) == 1 && TimeOf(turn.sends, 1) == turn.sends(0).took
  {
    assert TimeOf(turn.sends, 0) == 0;
  }

  lemma {:induction false} TotalGrows(times: seq<nat>, i: nat, n: nat)
    requires i <= n <= |times|
    ensures Total(times, i) <= Total(times, n)
    decreases n
  {
    if i < n {
      TotalGrows(times, i, n - 1);
    }
  }

  // ----- the streaming walk -----

  predicate StreamSane(env: StreamEnv) { env.budget > 1 && env.timeout > 0 && env.longest > 0 }

  function StreamTurnAt(env: StreamEnv, st: WalkState): StreamTurn { env.script(st.attempts, st.tried) }

  predicate StreamOpen(env: StreamEnv, st: WalkState) {
    !Spent(env.budget, st) && !StreamTurnAt(env, st).StreamCancelled? && st.attempts < env.maxAttempts
  }

  predicate StreamCalling(env: StreamEnv, st: WalkState) {
    StreamOpen(env, st) && StreamTurnAt(env, st).Attempt? && st.now - st.lastProgress < env.budget
  }

  /** The turn's calls were made, and this came of them. */
  predicate Yields(env: StreamEnv, st: WalkState, outcome: StreamOutcome) {
    StreamCalling(env, st) && PlayedTurn(env, st, StreamTurnAt(env, st)).outcome == outcome
  }

  /** Which outcome that is: the first call's, or behind a proxy failure before any output the direct one's, in time. */
  lemma TurnYields(env: StreamEnv, st: WalkState)
    requires StreamSane(env) && StreamCalling(env, st)
    ensures var turn := StreamTurnAt(env, st);
            var played := PlayedTurn(env, st, turn);
            var again := turn.tries(0).outcome == ProxyFailed(false) && !turn.commandCode && env.pool(turn.key) > 1;
            && played.called > 0
            && (!again ==> played.called == 1 && Yields(env, st, turn.tries(0).outcome))
            && (again ==> if played.called == 2 then Yields(env, st, turn.tries(1).outcome)
                          else Yields(env, st, StreamFailed(false)) &&
                               played.now - played.lastProgress >= env.budget)
  {
  }

  predicate StreamGivesUp(env: StreamEnv, st: WalkState) {
    var turn := StreamTurnAt(env, st);
    || Spent(env.budget, st)
    || (!Spent(env.budget, st) && !turn.StreamCancelled? && st.attempts >= env.maxAttempts && !env.vision)
    || (StreamOpen(env, st) && turn.StreamNobody? && !env.vision &&
        (turn.wait <= 0 || turn.wait >= env.budget - (st.now - st.lastProgress)))
    || (StreamOpen(env, st) && turn.Attempt? && st.now - st.lastProgress >= env.budget)
  }

  /** The client is gone before the turn, or hangs up while it waits for a cooldown. */
  predicate StreamLeft(env: StreamEnv, st: WalkState) {
    var turn := StreamTurnAt(env, st);
    || (!Spent(env.budget, st) && turn.StreamCancelled?)
    || (StreamOpen(env, st) && turn.StreamNobody? && !env.vision &&
        0 < turn.wait < env.budget - (st.now - st.lastProgress) && turn.hungUp)
  }

  predicate StreamVisionReply(env: StreamEnv, st: WalkState) {
    var turn := StreamTurnAt(env, st);
    && env.vision && !Spent(env.budget, st) && !turn.StreamCancelled?
    && (st.attempts >= env.maxAttempts || turn.StreamNobody?)
  }

  /** The walk stops here with this status. */
  predicate StreamStopsWith(env: StreamEnv, st: WalkState, status: Status) {
    match status
    case Ok200 => Yields(env, st, Streamed) || StreamVisionReply(env, st)
    case ClientGone499 => Yields(env, st, ClientGone) || StreamLeft(env, st)
    case BadGateway502 => false
    case Unavailable503 => Yields(env, st, StreamSaturated) || StreamGivesUp(env, st)
  }

  lemma TimeToAttempt(env: StreamEnv, st: WalkState)
    requires StreamSane(env) && StreamTurnAt(env, st).Attempt?
    ensures MayAttempt(env, st, StreamTurnAt(env, st)) <==> st.now - st.lastProgress < env.budget
  {
  }

  /** The exact condition for each status, turn by turn; any other outcome leads to the next turn. */
  lemma StreamStepStops(env: StreamEnv, st: WalkState, status: Status)
    requires StreamSane(env)
    ensures EndOf(StreamStep(env, st)) == Some(status) <==> StreamStopsWith(env, st, status)
  {
    if StreamTurnAt(env, st).Attempt? {
      TimeToAttempt(env, st);
    }
  }

  /** A failed proxy, endpoint or stream is never the reason to stop, nor a refused protocol. */
  lemma StreamMoves(env: StreamEnv, st: WalkState, outcome: StreamOutcome)
    requires StreamSane(env) && Yields(env, st, outcome)
    requires outcome.ProxyFailed? || outcome.StreamFailed? || outcome.StreamWrongProtocol?
    ensures var turn, next, played := StreamTurnAt(env, st), StreamStep(env, st), PlayedTurn(env, st, StreamTurnAt(env, st));
            var refuses := outcome == StreamWrongProtocol && turn.key !in st.flips;
            && next.Go? && next.st.attempts == st.attempts + 1
            && next.st.now == played.now && next.st.lastProgress == played.lastProgress
            && next.st.tried == st.tried + (if refuses then {} else {turn.key}) +
                                (if outcome == StreamFailed(false) then turn.sameHost else {})
            && next.st.flips == st.flips + (if refuses then {turn.key} else {})
  {
    TimeToAttempt(env, st);
  }

  function StreamAfter(env: StreamEnv, st: WalkState, n: nat): Option<WalkState>
    decreases n
  {
    if n == 0 then Some(st)
    else
      match StreamStep(env, st)
      case Stop(_, _) => None
      case Go(next, _) => StreamAfter(env, next, n - 1)
  }

  predicate StreamStopsAfter(env: StreamEnv, st: WalkState, n: nat, status: Status) {
    StreamAfter(env, st, n).Some? && StreamStopsWith(env, StreamAfter(env, st, n).value, status)
  }

  lemma {:induction false} StreamStopsSomewhere(env: StreamEnv, st: WalkState, turns: Turns) returns (n: nat)
    requires StreamSane(env) && st.attempts <= env.maxAttempts
    ensures StreamStopsAfter(env, st, n, StreamRun(env, st, turns).0)
    decreases env.maxAttempts - st.attempts
  {
    match StreamStep(env, st) {
      case Stop(status, _) =>
        StreamStepStops(env, st, status);
        n := 0;
      case Go(next, served) =>
        n := StreamStopsSomewhere(env, next, Record(turns, served));
        n := n + 1;
    }
  }

  lemma {:induction false} StreamReaches(env: StreamEnv, st: WalkState, turns: Turns, n: nat)
    requires StreamAfter(env, st, n).Some? && StreamStep(env, StreamAfter(env, st, n).value).Stop?
    ensures var last, (status, all) := StreamStep(env, StreamAfter(env, st, n).value), StreamRun(env, st, turns);
            status == last.status && (last.served.Some? ==> all.Then? && all.last == last.served.value)
    decreases n
  {
    if n > 0 {
      var next := StreamStep(env, st);
      StreamReaches(env, next.st, Record(turns, next.served), n - 1);
    }
  }

  lemma StreamStopsThere(env: StreamEnv, st: WalkState, turns: Turns, n: nat, status: Status)
    requires StreamSane(env) && StreamStopsAfter(env, st, n, status)
    ensures StreamRun(env, st, turns).0 == status
  {
    StreamStepStops(env, StreamAfter(env, st, n).value, status);
    StreamReaches(env, st, turns, n);
  }

  /** A streaming run ends with a status exactly when some turn it gets to meets the condition for it. */
  lemma StreamRunEndsWith(env: StreamEnv, status: Status)
    requires StreamSane(env)
    ensures StreamRun(env, AT_START, Begin).0 == status <==> exists n: nat :: StreamStopsAfter(env, AT_START, n, status)
  {
    var n := StreamStopsSomewhere(env, AT_START, Begin);
    if m: nat :| StreamStopsAfter(env, AT_START, m, status) {
      StreamStopsThere(env, AT_START, Begin, m, status);
    }
  }

  /** The next n turns fail, and the one behind them streams to its end. */
  predicate StreamsAfter(env: StreamEnv, st: WalkState, n: nat)
    decreases n
  {
    if n == 0 then Yields(env, st, Streamed)
    else
      && StreamCalling(env, st)
      && (var outcome := PlayedTurn(env, st, StreamTurnAt(env, st)).outcome;
          outcome.ProxyFailed? || outcome.StreamFailed? || outcome.StreamWrongProtocol?)
      && (StreamStep(env, st).Go? ==> StreamsAfter(env, StreamStep(env, st).st, n - 1))
  }

  lemma {:induction false} FailsThenStreams(env: StreamEnv, st: WalkState, n: nat)
    requires StreamSane(env) && StreamsAfter(env, st, n)
    ensures StreamAfter(env, st, n).Some? && StreamAfter(env, st, n).value.attempts == st.attempts + n
    ensures Yields(env, StreamAfter(env, st, n).value, Streamed)
    decreases n
  {
    if n > 0 {
      StreamMoves(env, st, PlayedTurn(env, st, StreamTurnAt(env, st)).outcome);
      FailsThenStreams(env, StreamStep(env, st).st, n - 1);
    }
  }

  /** However many endpoints fail, before or after output, a stream inside budget and attempts ends well. */
  lemma StreamFailsOver(env: StreamEnv, st: WalkState, turns: Turns, n: nat)
    requires StreamSane(env) && StreamsAfter(env, st, n)
    ensures var (status, all) := StreamRun(env, st, turns);
            && status == Ok200 && all.Then? && all.last.attempt == st.attempts + n
            && StreamFrom(env.script, all.last)
  {
    FailsThenStreams(env, st, n);
    StreamEnds(env, StreamAfter(env, st, n).value);
    StreamReaches(env, st, turns, n);
  }

  lemma StreamEnds(env: StreamEnv, st: WalkState)
    requires StreamSane(env) && Yields(env, st, Streamed)
    ensures var next := StreamStep(env, st);
            && next == Stop(Ok200, next.served) && next.served.Some? && next.served.value.attempt == st.attempts
            && StreamFrom(env.script, next.served.value)
  {
    TimeToAttempt(env, st);
    TurnYields(env, st);
    AttemptStepKeeps(env, st, StreamTurnAt(env, st));
  }

  // ----- every request -----

  /** Every request brings time along. */
  lemma RequestsAreSane(tokens: int, chainLen: nat, vision: bool, pool: Key -> int, script: (nat, set<Key>) -> Turn)
    ensures Sane(EnvOf(tokens, chainLen, vision, pool, script))
  {
    BudgetBounds(tokens);
    TimeoutBounds(tokens);
  }

  lemma StreamsAreSane(tokens: int, chainLen: nat, vision: bool, streamIdle: nat, capped: bool, pool: Key -> int,
                       script: (nat, set<Key>) -> StreamTurn)
    ensures StreamSane(StreamEnvOf(tokens, chainLen, vision, streamIdle, capped, pool, script))
  {
    BudgetBounds(tokens);
    TimeoutBounds(tokens);
  }
}
