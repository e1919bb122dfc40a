/** What operations leave alone: only a submission of the session that holds a request adds to its answer, only a
    reaction lowers a reward, only a match or a take-over names a holder, and it names the session as it is. */
module FragmentOrigin {
  import opened Sequences
  import opened Domain
  import opened ServiceSpec
  import opened ServiceInvariant
  import opened ServiceOperations
  import Matching

  ghost predicate SameAnswers(s: State, t: State) {
    forall q :: q in s.requests ==> q in t.requests && t.requests[q].fragments == s.requests[q].fragments
  }

  /** No reward is lowered. */
  ghost predicate NoneLowered(s: State, t: State) {
    forall u :: Lowered(t.ledger, u) == Lowered(s.ledger, u)
  }

  /** A recorded holder of `q` is the fallback of `q`, or a session with its account and kind. */
  ghost predicate HolderOk(sessions: map<Id, Session>, q: Id, holder: Responder) {
    || holder.Nobody?
    || holder == Responder("fallback_" + q, "", true, Fallback)
    || (holder.session in sessions
        && var info := sessions[holder.session];
           holder == Responder(holder.session, info.user, info.guest, if info.kind == Unset then Human else info.kind))
  }

  /** A persona's question is held by nobody who has refused such questions. */
  ghost predicate Willing(acceptAi: map<Id, bool>, r: Request) {
    r.ask.kind == AiPersona && r.responder.Responder? && r.responder.kind != Fallback && r.responder.session in acceptAi
    ==> acceptAi[r.responder.session]
  }

  ghost predicate SameHolder(s: State, t: State, q: Id)
    requires q in t.requests
  {
    t.requests[q].responder.Nobody? || (q in s.requests && t.requests[q].responder == s.requests[q].responder)
  }

  /** A request that gets a holder gets one that is known as it is recorded, and that has not refused. */
  ghost predicate HoldersStay(s: State, t: State) {
    forall q :: q in t.requests ==>
      SameHolder(s, t, q) || (HolderOk(t.sessions, q, t.requests[q].responder) && Willing(t.acceptAi, t.requests[q]))
  }

  predicate SameSessions(s: State, t: State) {
    t.sessions == s.sessions && t.tokens == s.tokens
  }

  ghost predicate Steady(s: State, t: State) {
    SameAnswers(s, t) && NoneLowered(s, t) && HoldersStay(s, t) && SameSessions(s, t) && t.acceptAi == s.acceptAi
    && forall q :: q in s.requests ==> q in t.requests && t.requests[q].ask == s.requests[q].ask
  }

  lemma SteadyTransitive(s: State, t: State, v: State)
    requires Steady(s, t) && Steady(t, v)
    ensures Steady(s, v)
  {
    forall q | q in v.requests
      ensures SameHolder(s, v, q) || (HolderOk(v.sessions, q, v.requests[q].responder) && Willing(v.acceptAi, v.requests[q]))
    {
      if SameHolder(t, v, q) && q in t.requests {
        assert SameHolder(s, t, q) || (HolderOk(t.sessions, q, t.requests[q].responder) && Willing(t.acceptAi, t.requests[q]));
      }
    }
  }

  lemma EntryLowersNothing(s: State, t: State, e: Entry)
    requires t.ledger == s.ledger + [e] && e.kind != ReactionAdjustment
    ensures NoneLowered(s, t)
  {
    forall u ensures Lowered(t.ledger, u) == Lowered(s.ledger, u) {
      TotalAppend(s.ledger, e, u);
    }
  }

  /** A change of one record that leaves its answer alone. */
  lemma OneRecord(s: State, t: State, q: Id, r: Request)
    requires q in s.requests && t.requests == s.requests[q := r] && r.fragments == s.requests[q].fragments && r.ask == s.requests[q].ask
    requires SameSessions(s, t) && t.acceptAi == s.acceptAi && NoneLowered(s, t)
    requires r.responder.Nobody? || r.responder == s.requests[q].responder
             || (HolderOk(s.sessions, q, r.responder) && Willing(s.acceptAi, r))
    ensures Steady(s, t)
  {
  }

  lemma RequeueKeeps(s: State, q: Id, now: int)
    requires q in s.requests
    ensures Steady(s, Requeue(s, q, now))
  {
    OneRecord(s, Requeue(s, q, now), q, RequeueRequest(s.requests[q], now));
  }

  lemma AbandonKeeps(s: State, q: Id, now: int)
    requires q in s.requests
    ensures Steady(s, Abandon(s, q, now))
  {
    OneRecord(s, Abandon(s, q, now), q, AbandonRequest(s.requests[q], now));
  }

  lemma GiveUpKeeps(s: State, q: Id, now: int)
    requires q in s.requests
    ensures Steady(s, Requeue(s, q, now)) && Steady(s, Abandon(s, q, now)) && Steady(s, GiveUp(s, q, now))
  {
    RequeueKeeps(s, q, now);
    AbandonKeeps(s, q, now);
  }

  lemma SameSteady(s: State)
    ensures Steady(s, s)
  {
  }

  lemma CompleteKeeps(s: State, q: Id, reason: Reason, now: int)
    requires q in s.requests
    ensures Steady(s, Complete(s, q, reason, now))
  {
    var t := Complete(s, q, reason, now);
    if IsTerminal(s.requests[q].status) {
      SameSteady(s);
    } else {
      if t.ledger != s.ledger {
        EntryLowersNothing(s, t, Entry(s.requests[q].responder.user, q, AnswerReward, BASE_ANSWER_REWARD));
      }
      OneRecord(s, t, q, CompleteRequest(s.requests[q], reason, now));
    }
  }

  lemma AssignNextKeeps(s: State, i: nat, j: nat, now: int)
    requires i < |s.queue| && j < |s.available| && Compatible(s, s.queue[i], s.available[j])
    ensures Steady(s, AssignNext(s, i, j, now))
  {
    var t := Assign(s, i, j, now);
    AssignKeeps(s, i, j, now);
    if |s.responders[s.available[j]]| >= INBOX_CAPACITY {
      GiveUpKeeps(t, s.queue[i], now);
    } else {
      assert Steady(t, AssignNext(s, i, j, now));
    }
    SteadyTransitive(s, t, AssignNext(s, i, j, now));
  }

  lemma AssignKeeps(s: State, i: nat, j: nat, now: int)
    requires i < |s.queue| && j < |s.available| && Compatible(s, s.queue[i], s.available[j])
    ensures Steady(s, Assign(s, i, j, now))
  {
  }

  lemma {:induction false} TryAssignKeeps(s: State, now: int)
    ensures Steady(s, TryAssign(s, now))
    decreases |s.available|
  {
    var next := Matching.MemoryNext(s.queue, s.available, CompatibleIn(s));
    if next.Some? {
      AssignNextKeeps(s, next.value.0, next.value.1, now);
      TryAssignKeeps(AssignNext(s, next.value.0, next.value.1, now), now);
      SteadyTransitive(s, AssignNext(s, next.value.0, next.value.1, now), TryAssign(s, now));
    }
  }

  lemma CreateKeeps(s: State, token: Id, q: Id, messages: seq<Message>, maxOutput: int, allowAi: bool, preferred: Id, now: int)
    requires q !in s.requests
    ensures Steady(s, CreateRequest(s, token, q, messages, maxOutput, allowAi, preferred, now).0)
  {
    if CreateRequest(s, token, q, messages, maxOutput, allowAi, preferred, now).1.Ok? {
      var id := SessionOf(s, token).value;
      var r := NewRequest(id, s.sessions[id], allowAi, preferred, messages, maxOutput, now);
      var t := s.(requests := s.requests[q := r], queue := s.queue + [q]);
      assert Steady(s, t);
      TryAssignKeeps(t, now);
      SteadyTransitive(s, t, TryAssign(t, now));
    }
  }

  lemma OfferKeeps(s: State, a: Id, now: int)
    ensures Steady(s, Offer(s, a, now))
  {
    TryAssignKeeps(if a in s.available then s else s.(available := s.available + [a]), now);
  }

  lemma UnregisterKeeps(s: State, a: Id, now: int)
    ensures Steady(Disconnect(s, a), UnregisterResponder(s, a, now))
  {
    var t := Disconnect(s, a);
    if a in s.active && s.active[a] in s.requests {
      GiveUpKeeps(t, s.active[a], now);
      CompleteKeeps(t, s.active[a], Partial, now);
    }
  }

  lemma SkipKeeps(s: State, a: Id, now: int)
    ensures Steady(s, Skip(s, a, now).0)
  {
    if a in s.active && s.active[a] in s.requests {
      GiveUpKeeps(s, s.active[a], now);
      TryAssignKeeps(Requeue(s, s.active[a], now), now);
      SteadyTransitive(s, Requeue(s, s.active[a], now), TryAssign(Requeue(s, s.active[a], now), now));
    }
  }

  lemma FinishKeeps(s: State, a: Id, now: int)
    ensures Steady(s, Finish(s, a, now).0)
  {
    if a in s.active && s.active[a] in s.requests {
      CompleteKeeps(s, s.active[a], Stop, now);
    }
  }

  lemma SweepOneKeeps(s: State, q: Id, now: int, assignedTimeout: int, streamingTimeout: int)
    ensures Steady(s, SweepOne(s, q, now, assignedTimeout, streamingTimeout).0)
  {
    SameSteady(s);
    if q in s.requests && AssignmentExpired(s.requests[q], now, assignedTimeout) {
      GiveUpKeeps(s, q, now);
    } else if q in s.requests && StreamExpired(s.requests[q], now, streamingTimeout) {
      CompleteKeeps(s, q, Partial, now);
    }
  }

  lemma {:induction false} SweepAllKeeps(s: State, order: seq<Id>, now: int, assignedTimeout: int, streamingTimeout: int)
    ensures Steady(s, SweepAll(s, order, now, assignedTimeout, streamingTimeout).0)
    decreases |order|
  {
    if order != [] {
      var n := |order| - 1;
      SweepAllKeeps(s, order[..n], now, assignedTimeout, streamingTimeout);
      SweepOneKeeps(SweepAll(s, order[..n], now, assignedTimeout, streamingTimeout).0, order[n], now, assignedTimeout, streamingTimeout);
      SteadyTransitive(s, SweepAll(s, order[..n], now, assignedTimeout, streamingTimeout).0,
                       SweepAll(s, order, now, assignedTimeout, streamingTimeout).0);
    }
  }

  lemma SweepKeeps(s: State, order: seq<Id>, now: int, assignedTimeout: int, streamingTimeout: int)
    ensures Steady(s, SweepTimeouts(s, order, now, assignedTimeout, streamingTimeout))
  {
    var t := SweepAll(s, order, now, assignedTimeout, streamingTimeout).0;
    SweepAllKeeps(s, order, now, assignedTimeout, streamingTimeout);
    TryAssignKeeps(t, now);
    SteadyTransitive(s, t, TryAssign(t, now));
  }

  predicate SignsIn(op: Op) {
    op.DoRegister? || op.DoLogin? || op.DoGuest? || op.DoPersona?
  }

  lemma AccountKeeps(s: State, op: Op)
    requires SignsIn(op)
    ensures Step(s, op).requests == s.requests && NoneLowered(s, Step(s, op)) && Step(s, op).acceptAi == s.acceptAi
  {
    if op.DoRegister? {
      EntryLowersNothing(s, Step(s, op), Entry(op.user, "", SignupGrant, SIGNUP_GRANT));
    }
  }

  lemma InboxKeeps(s: State, op: Op)
    requires op.DoRegisterResponder? || op.DoReceiveAssignment?
    ensures Step(s, op).requests == s.requests && Step(s, op).ledger == s.ledger
    ensures Step(s, op).acceptAi == s.acceptAi && SameSessions(s, Step(s, op))
  {
  }

  /** The request with other subscribers. */
  function WithSubscribers(s: State, q: Id, subscribers: map<Id, Subscriber>): State
    requires q in s.requests
  {
    s.(requests := s.requests[q := s.requests[q].(subscribers := subscribers)])
  }

  lemma SubscribersKeep(s: State, q: Id, subscribers: map<Id, Subscriber>)
    requires q in s.requests
    ensures Steady(s, WithSubscribers(s, q, subscribers))
  {
  }

  lemma SubscribeKeeps(s: State, q: Id, sub: Id)
    ensures Steady(s, Subscribe(s, q, sub).0)
  {
    if q in s.requests {
      var log := Replay(s.requests[q]);
      SubscribersKeep(s, q, s.requests[q].subscribers[sub := Subscriber(log, |log|, false, IsTerminal(s.requests[q].status))]);
    }
  }

  lemma UnsubscribeKeeps(s: State, q: Id, sub: Id)
    ensures Steady(s, Unsubscribe(s, q, sub))
  {
    if q in s.requests {
      SubscribersKeep(s, q, s.requests[q].subscribers - {sub});
    }
  }

  lemma ReceiveKeeps(s: State, q: Id, sub: Id)
    ensures Steady(s, ReceiveEvent(s, q, sub))
  {
    if q in s.requests {
      SubscribersKeep(s, q, TakeOne(s.requests[q].subscribers, sub));
    }
  }

  lemma CancelKeeps(s: State, q: Id, now: int)
    ensures Steady(s, Cancel(s, q, now).0)
  {
    if q in s.requests {
      GiveUpKeeps(s, q, now);
    }
  }

  lemma ReactKeeps(s: State, token: Id, q: Id, reaction: Reaction, now: int)
    ensures var t := React(s, token, q, reaction, now).0;
            SameAnswers(s, t) && HoldersStay(s, t) && t.acceptAi == s.acceptAi && SameSessions(s, t)
  {
    var (t, result) := React(s, token, q, reaction, now);
    if result.Ok? {
      assert t == ApplyReaction(s, q, reaction);
    }
  }

  lemma FallbackKeeps(s: State, q: Id, now: int)
    ensures Steady(s, AcquireFallback(s, q, now).0)
  {
    if FallbackMayTake(s, q) {
      OneRecord(s, AcquireFallback(s, q, now).0, q,
                AssignRequest(s.requests[q], Responder(FallbackSession(q), "", true, Fallback), now));
    } else {
      SameSteady(s);
    }
  }

  /** The operations that leave everything of this kind alone. */
  predicate IsSteady(op: Op) {
    || op.DoCreate? || op.DoCreateTargeted? || op.DoResume? || op.DoFinish? || op.DoSkip? || op.DoSweep? || op.DoCancel?
    || op.DoFallback? || op.DoSubscribe? || op.DoUnsubscribe? || op.DoReceiveEvent?
  }

  lemma SteadyOps(s: State, op: Op)
    requires Enabled(s, op) && IsSteady(op)
    ensures Steady(s, Step(s, op))
  {
    match op
    case DoCreate(token, q, messages, max, allow, now) => CreateKeeps(s, token, q, messages, max, allow, "", now);
    case DoCreateTargeted(token, q, messages, max, preferred, now) => CreateKeeps(s, token, q, messages, max, false, preferred, now);
    case DoResume(a, now) => OfferKeeps(s, a, now);
    case DoFinish(a, now) => FinishKeeps(s, a, now);
    case DoSkip(a, now) => SkipKeeps(s, a, now);
    case DoSweep(order, now, at, st) => SweepKeeps(s, order, now, at, st);
    case DoCancel(q, now) => CancelKeeps(s, q, now);
    case DoFallback(q, now) => FallbackKeeps(s, q, now);
    case DoSubscribe(q, sub) => SubscribeKeeps(s, q, sub);
    case DoUnsubscribe(q, sub) => UnsubscribeKeeps(s, q, sub);
    case DoReceiveEvent(q, sub) => ReceiveKeeps(s, q, sub);
  }

  lemma MarkKeeps(s: State, a: Id, acceptAi: bool, now: int)
    ensures var t := MarkAvailable(s, a, acceptAi, now).0;
            SameAnswers(s, t) && NoneLowered(s, t) && HoldersStay(s, t) && SameSessions(s, t)
            && t.acceptAi == if a in s.responders then s.acceptAi[a := acceptAi] else s.acceptAi
  {
    OfferKeeps(s.(acceptAi := s.acceptAi[a := acceptAi]), a, now);
  }

  /** Every operation but a submission leaves all answers as they are, and every operation but these and a reaction
      leaves all rewards. */
  lemma OthersKeepAnswers(s: State, op: Op)
    requires Enabled(s, op) && !op.DoSubmit?
    ensures SameAnswers(s, Step(s, op))
    ensures !op.DoReact? ==> NoneLowered(s, Step(s, op))
  {
    StepKeeps(s, op);
  }

  lemma StepKeeps(s: State, op: Op)
    requires Enabled(s, op) && !op.DoSubmit?
    ensures SameAnswers(s, Step(s, op)) && HoldersStay(s, Step(s, op))
    ensures !op.DoReact? ==> NoneLowered(s, Step(s, op))
    ensures !op.DoMarkAvailable? && !op.DoUnregister? ==> Step(s, op).acceptAi == s.acceptAi
    ensures !SignsIn(op) ==> SameSessions(s, Step(s, op))
  {
    if IsSteady(op) {
      SteadyOps(s, op);
    } else if op.DoUnregister? {
      UnregisterKeeps(s, op.session, op.now);
    } else if op.DoMarkAvailable? {
      MarkKeeps(s, op.session, op.acceptAi, op.now);
    } else if op.DoReact? {
      ReactKeeps(s, op.token, op.request, op.reaction, op.now);
    } else if op.DoRegisterResponder? || op.DoReceiveAssignment? {
      InboxKeeps(s, op);
    } else {
      AccountKeeps(s, op);
    }
  }

  /** The state of a commit before the length limit is checked. */
  function Stored(s: State, held: Id, f: Fragment): State
    requires held in s.requests && f.clientSeq > 0
  {
    s.(requests := s.requests[held := AppendFragment(s.requests[held], f)],
       ledger := if !s.requests[held].charged && !s.requests[held].ask.guest
                 then s.ledger + [Entry(s.requests[held].ask.requester, held, QuestionCharge, -QUESTION_COST)] else s.ledger)
  }

  lemma StoredKeeps(s: State, held: Id, f: Fragment)
    requires held in s.requests && f.clientSeq > 0
    ensures var t := Stored(s, held, f); NoneLowered(s, t) && HoldersStay(s, t) && t.acceptAi == s.acceptAi && SameSessions(s, t)
  {
    if Stored(s, held, f).ledger != s.ledger {
      EntryLowersNothing(s, Stored(s, held, f), Entry(s.requests[held].ask.requester, held, QuestionCharge, -QUESTION_COST));
    }
  }

  lemma CommitIsStored(s: State, held: Id, f: Fragment)
    requires held in s.requests && f.clientSeq > 0
    ensures var t := Stored(s, held, f);
            Commit(s, held, f) == if |AnswerText(t.requests[held].fragments)| >= t.requests[held].ask.limit
                                  then Complete(t, held, Length, f.at) else t
  {
  }

  lemma HoldersStayOn(s: State, t: State, v: State)
    requires HoldersStay(s, t) && Steady(t, v)
    ensures HoldersStay(s, v)
  {
    forall q | q in v.requests
      ensures SameHolder(s, v, q) || (HolderOk(v.sessions, q, v.requests[q].responder) && Willing(v.acceptAi, v.requests[q]))
    {
      if SameHolder(t, v, q) && q in t.requests {
        assert SameHolder(s, t, q) || (HolderOk(t.sessions, q, t.requests[q].responder) && Willing(t.acceptAi, t.requests[q]));
      }
    }
  }

  lemma CommitAdds(s: State, held: Id, f: Fragment, q: Id)
    requires held in s.requests && f.clientSeq > 0 && q in s.requests
    ensures q in Commit(s, held, f).requests
    ensures Commit(s, held, f).requests[q].fragments == s.requests[q].fragments + (if held == q then [f] else [])
    ensures NoneLowered(s, Commit(s, held, f)) && HoldersStay(s, Commit(s, held, f))
    ensures Commit(s, held, f).acceptAi == s.acceptAi && SameSessions(s, Commit(s, held, f))
  {
    var t := Stored(s, held, f);
    CommitIsStored(s, held, f);
    StoredKeeps(s, held, f);
    SameSteady(t);
    CompleteKeeps(t, held, Length, f.at);
    HoldersStayOn(s, t, Commit(s, held, f));
  }

  /** A submission adds at most its own fragment, to the request its session holds. */
  lemma SubmitAdds(s: State, a: Id, n: int, text: string, fragment: Id, now: int, q: Id)
    requires q in s.requests
    ensures var t, accepted := SubmitFragment(s, a, n, text, fragment, now).0, Accepts(s, a, n, text);
            && q in t.requests
            && t.requests[q].fragments ==
                 s.requests[q].fragments + (if accepted && s.active[a] == q then [Fragment(fragment, a, n, text, now)] else [])
  {
    SubmitIs(s, a, n, text, fragment, now);
    if Accepts(s, a, n, text) {
      CommitAdds(s, s.active[a], Fragment(fragment, a, n, text, now), q);
    }
  }

  lemma SubmitLowersNothing(s: State, a: Id, n: int, text: string, fragment: Id, now: int)
    ensures var t := SubmitFragment(s, a, n, text, fragment, now).0;
            NoneLowered(s, t) && HoldersStay(s, t) && t.acceptAi == s.acceptAi && SameSessions(s, t)
  {
    SubmitIs(s, a, n, text, fragment, now);
    if Accepts(s, a, n, text) {
      CommitAdds(s, s.active[a], Fragment(fragment, a, n, text, now), s.active[a]);
    }
  }
}
