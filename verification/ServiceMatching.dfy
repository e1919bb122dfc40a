/** What a matching pass of the service does, and when a compatible pair can be left waiting. */
module ServiceMatching {
  import opened Sequences
  import opened Domain
  import opened ServiceSpec
  import opened ServiceInvariant
  import opened ServiceSteps
  import opened ServiceOperations
  import Matching

  // ---------------------------------------------------------------- the pass is the plain matcher

  ghost predicate Agree(queue: seq<Id>, available: seq<Id>, ok: Matching.Compat, ok': Matching.Compat) {
    forall q, a :: q in queue && a in available ==> ok(q, a) == ok'(q, a)
  }

  lemma {:induction false} SameNext(queue: seq<Id>, available: seq<Id>, ok: Matching.Compat, ok': Matching.Compat)
    requires Agree(queue, available, ok, ok')
    ensures Matching.MemoryNext(queue, available, ok) == Matching.MemoryNext(queue, available, ok')
    decreases |queue|
  {
    if queue != [] {
      var j, j' := Matching.FirstResponder(queue[0], available, ok), Matching.FirstResponder(queue[0], available, ok');
      assert forall k :: 0 <= k < |available| ==> ok(queue[0], available[k]) == ok'(queue[0], available[k]);
      assert j == j';
      SameNext(queue[1..], available, ok, ok');
    }
  }

  lemma {:induction false} SameDrain(queue: seq<Id>, available: seq<Id>, ok: Matching.Compat, ok': Matching.Compat)
    requires Agree(queue, available, ok, ok')
    ensures Matching.MemoryDrain(queue, available, ok) == Matching.MemoryDrain(queue, available, ok')
    decreases |queue|
  {
    SameNext(queue, available, ok, ok');
    var next := Matching.MemoryNext(queue, available, ok);
    if next.Some? {
      SameDrain(RemoveAt(queue, next.value.0), RemoveAt(available, next.value.1), ok, ok');
    }
  }

  /** Every available responder has room for one more assignment. */
  ghost predicate RoomForAll(s: State) {
    forall a :: a in s.available && a in s.responders ==> |s.responders[a]| < INBOX_CAPACITY
  }

  lemma RemainingCompatible(s: State, i: nat, j: nat, now: int)
    requires QueueOk(s) && AvailableOk(s) && RoomForAll(s)
    requires i < |s.queue| && j < |s.available| && Compatible(s, s.queue[i], s.available[j])
    ensures var t := AssignNext(s, i, j, now);
            && t.queue == RemoveAt(s.queue, i) && t.available == RemoveAt(s.available, j) && RoomForAll(t)
            && t.active == s.active[s.available[j] := s.queue[i]]
            && Agree(t.queue, t.available, CompatibleIn(s), CompatibleIn(t))
  {
    var t, q0, a0 := AssignNext(s, i, j, now), s.queue[i], s.available[j];
    RemoveAtMembers(s.queue, i);
    RemoveAtMembers(s.available, j);
    assert a0 in s.available;
    assert t == Assign(s, i, j, now).(responders := s.responders[a0 := s.responders[a0] + [q0]]);
    forall q, a | q in t.queue && a in t.available ensures Compatible(s, q, a) == Compatible(t, q, a) {
      assert q != q0 && a != a0;
    }
  }

  ghost predicate Handed(s: State, t: State, pairs: seq<(Id, Id)>) {
    && (forall p :: p in pairs ==> p.1 in t.active && t.active[p.1] == p.0)
    && (forall a :: a in s.active ==> a in t.active && t.active[a] == s.active[a])
    && (forall a :: a in t.active && a !in s.active ==> (t.active[a], a) in pairs)
  }

  /** With room in every inbox, the pass hands out exactly the stable matching of queue and available list. */
  lemma {:induction false} TryAssignIsDrain(s: State, now: int)
    requires Inv(s) && RoomForAll(s)
    ensures var t, d := TryAssign(s, now), Matching.MemoryDrain(s.queue, s.available, CompatibleIn(s));
            && t.queue == d.queue && t.available == d.available && Handed(s, t, d.pairs)
            && Matching.DrainsTo(s.queue, s.available, CompatibleIn(s), d)
    decreases |s.available|
  {
    Matching.MemoryDrainIsStable(s.queue, s.available, CompatibleIn(s));
    var next := Matching.MemoryNext(s.queue, s.available, CompatibleIn(s));
    if next.Some? {
      var (i, j) := next.value;
      var t := AssignNext(s, i, j, now);
      assert Compatible(s, s.queue[i], s.available[j]);
      AssignNextSound(s, i, j, now);
      RemainingCompatible(s, i, j, now);
      TryAssignIsDrain(t, now);
      SameDrain(t.queue, t.available, CompatibleIn(s), CompatibleIn(t));
      HandedStep(s, t, TryAssign(t, now), s.queue[i], s.available[j],
                 Matching.MemoryDrain(t.queue, t.available, CompatibleIn(t)).pairs);
    }
  }

  lemma HandedStep(s: State, t: State, u: State, q: Id, a: Id, pairs: seq<(Id, Id)>)
    requires a !in s.active && t.active == s.active[a := q] && Handed(t, u, pairs)
    ensures Handed(s, u, [(q, a)] + pairs)
  {
  }

  // ---------------------------------------------------------------- order of the others

  /** The requests a pass picks, in order. */
  function Picks(s: State, now: int): seq<Id>
    decreases |s.available|
  {
    match Matching.MemoryNext(s.queue, s.available, CompatibleIn(s))
    case None => []
    case Some((i, j)) => [s.queue[i]] + Picks(AssignNext(s, i, j, now), now)
  }

  ghost function NotIn(xs: seq<Id>): Id -> bool {
    q => q !in xs
  }

  /** Requests the pass never picked keep their places among each other, whatever happened to the
      others; and a pass, full inboxes or not, ends with no compatible pair. */
  lemma {:induction false} OthersKeepTheirOrder(s: State, now: int, passedOver: Id -> bool)
    requires forall q :: q in Picks(s, now) ==> !passedOver(q)
    ensures Filter(TryAssign(s, now).queue, passedOver) == Filter(s.queue, passedOver)
    ensures Quiescent(TryAssign(s, now))
    decreases |s.available|
  {
    TryAssignQuiescent(s, now);
    var next := Matching.MemoryNext(s.queue, s.available, CompatibleIn(s));
    if next.Some? {
      var (i, j) := next.value;
      var t := AssignNext(s, i, j, now);
      assert s.queue[i] in Picks(s, now);
      assert forall q :: q in Picks(t, now) ==> q in Picks(s, now);
      OthersKeepTheirOrder(t, now, passedOver);
      FilterRemoveAt(s.queue, i, passedOver);
      FilterAppend(RemoveAt(s.queue, i), [s.queue[i]], passedOver);
      assert Filter([s.queue[i]], passedOver) == [];
    }
  }

  // ---------------------------------------------------------------- quiescence

  /** Shrinking both lists without making anyone more compatible leaves no new pair. */
  lemma QuiescentKept(s: State, t: State)
    requires Quiescent(s)
    requires forall q :: q in t.queue ==> q in s.queue
    requires forall a :: a in t.available ==> a in s.available
    requires forall q, a :: q in t.queue && a in t.available && Compatible(t, q, a) ==> Compatible(s, q, a)
    ensures Quiescent(t)
  {
    forall i, j | 0 <= i < |t.queue| && 0 <= j < |t.available| ensures !Compatible(t, t.queue[i], t.available[j]) {
      var q, a := t.queue[i], t.available[j];
      assert q in s.queue && a in s.available;
      var i' :| 0 <= i' < |s.queue| && s.queue[i'] == q;
      var j' :| 0 <= j' < |s.available| && s.available[j'] == a;
      assert !CompatibleIn(s)(s.queue[i'], s.available[j']);
    }
  }

  /** A request that only changed its record elsewhere is as compatible as before. */
  lemma QuietChange(s: State, t: State, q: Id, r: Request)
    requires QueueOk(s) && AvailableOk(s) && Quiescent(s)
    requires t.requests == s.requests[q := r] && (q in s.requests ==> r.ask == s.requests[q].ask)
    requires forall p :: p in t.queue ==> p in s.queue
    requires t.available == s.available && t.responders == s.responders && t.acceptAi == s.acceptAi && t.sessions == s.sessions
    ensures Quiescent(t)
  {
    forall p, a | p in t.queue && a in t.available && Compatible(t, p, a) ensures Compatible(s, p, a) {
      assert p in s.queue && a in s.available;
    }
    QuiescentKept(s, t);
  }

  /** The disconnect that puts a request back into the queue without a matching pass. */
  predicate DisconnectRequeues(s: State, op: Op) {
    && op.DoUnregister? && op.session in s.active && s.active[op.session] in s.requests
    && s.requests[s.active[op.session]].fragments == [] && s.requests[s.active[op.session]].ask.preferred == ""
  }

  lemma AbandonQuiescent(s: State, q: Id, now: int)
    requires Inv(s) && Quiescent(s) && q in s.requests
    ensures Quiescent(Abandon(s, q, now))
  {
    WithoutMembers(s.queue, q);
    QuietChange(s, Abandon(s, q, now), q, AbandonRequest(s.requests[q], now));
  }

  lemma CompleteQuiescent(s: State, q: Id, reason: Reason, now: int)
    requires Inv(s) && Quiescent(s) && q in s.requests
    ensures Quiescent(Complete(s, q, reason, now))
  {
    if !IsTerminal(s.requests[q].status) {
      QuietChange(s, Complete(s, q, reason, now), q, CompleteRequest(s.requests[q], reason, now));
    }
  }

  lemma SubmitQuiescent(s: State, a: Id, clientSeq: int, text: string, fragment: Id, now: int)
    requires Inv(s) && Quiescent(s)
    ensures Quiescent(SubmitFragment(s, a, clientSeq, text, fragment, now).0)
  {
    SubmitIs(s, a, clientSeq, text, fragment, now);
    if Accepts(s, a, clientSeq, text) {
      var q, f := s.active[a], Fragment(fragment, a, clientSeq, text, now);
      HeldRequest(s, a);
      CommitIs(s, q, f);
      QuietChange(s, Commit(s, q, f), q, Commit(s, q, f).requests[q]);
    }
  }

  lemma FallbackQuiescent(s: State, q: Id, now: int)
    requires Inv(s) && Quiescent(s)
    ensures Quiescent(AcquireFallback(s, q, now).0)
  {
    if FallbackMayTake(s, q) {
      WithoutMembers(s.queue, q);
      QuietChange(s, AcquireFallback(s, q, now).0, q, AcquireFallback(s, q, now).0.requests[q]);
    }
  }

  lemma DisconnectQuiescent(s: State, a: Id)
    requires Inv(s) && Quiescent(s)
    ensures Quiescent(Disconnect(s, a))
  {
    WithoutMembers(s.available, a);
    QuiescentKept(s, Disconnect(s, a));
  }

  lemma OfferQuiescent(s: State, a: Id, now: int)
    requires a in s.active ==> Quiescent(s)
    ensures Quiescent(Offer(s, a, now))
  {
    TryAssignQuiescent(if a in s.available then s else s.(available := s.available + [a]), now);
  }

  /** A busy responder changing its mind about AI questions is not in the available list. */
  lemma BusyMarkQuiescent(s: State, a: Id, acceptAi: bool)
    requires Quiescent(s) && a !in s.available
    ensures Quiescent(s.(acceptAi := s.acceptAi[a := acceptAi]))
  {
    var t := s.(acceptAi := s.acceptAi[a := acceptAi]);
    forall q, b | q in t.queue && b in t.available && Compatible(t, q, b) ensures Compatible(s, q, b) {
      assert b != a;
    }
    QuiescentKept(s, t);
  }

  lemma MarkQuiescent(s: State, a: Id, acceptAi: bool, now: int)
    requires Inv(s) && Quiescent(s)
    ensures Quiescent(MarkAvailable(s, a, acceptAi, now).0)
  {
    if a in s.responders {
      if a in s.active {
        BusyMarkQuiescent(s, a, acceptAi);
      }
      OfferQuiescent(s.(acceptAi := s.acceptAi[a := acceptAi]), a, now);
    }
  }

  lemma {:induction false} SweepUnchanged(s: State, order: seq<Id>, now: int, assignedTimeout: int, streamingTimeout: int)
    ensures var (t, changed) := SweepAll(s, order, now, assignedTimeout, streamingTimeout); !changed ==> t == s
    decreases |order|
  {
    if order != [] {
      SweepUnchanged(s, order[..|order| - 1], now, assignedTimeout, streamingTimeout);
    }
  }

  lemma SweepQuiescent(s: State, order: seq<Id>, now: int, assignedTimeout: int, streamingTimeout: int)
    requires Quiescent(s)
    ensures Quiescent(SweepTimeouts(s, order, now, assignedTimeout, streamingTimeout))
  {
    SweepUnchanged(s, order, now, assignedTimeout, streamingTimeout);
    TryAssignQuiescent(SweepAll(s, order, now, assignedTimeout, streamingTimeout).0, now);
  }

  lemma UnregisterQuiescent(s: State, a: Id, now: int)
    requires Inv(s) && Quiescent(s) && !DisconnectRequeues(s, DoUnregister(a, now))
    ensures Quiescent(UnregisterResponder(s, a, now))
  {
    DisconnectSound(s, a);
    DisconnectQuiescent(s, a);
    if a in s.active {
      var t, q := Disconnect(s, a), s.active[a];
      HeldRequest(s, a);
      if s.requests[q].fragments == [] {
        AbandonQuiescent(t, q, now);
      } else {
        CompleteQuiescent(t, q, Partial, now);
      }
    }
  }

  lemma SkipQuiescent(s: State, a: Id, now: int)
    requires Inv(s) && Quiescent(s)
    ensures Quiescent(Skip(s, a, now).0)
  {
    if a in s.active {
      var q := s.active[a];
      HeldRequest(s, a);
      if s.requests[q].fragments == [] {
        if s.requests[q].ask.preferred != "" || s.requests[q].ask.kind == AiPersona {
          AbandonQuiescent(s, q, now);
        } else {
          TryAssignQuiescent(Requeue(s, q, now), now);
        }
      }
    }
  }

  lemma SessionQuiescent(s: State, token: Id, id: Id, session: Session)
    requires Inv(s) && Quiescent(s) && FreshSession(s, token, id)
    ensures Quiescent(AddSession(s, token, id, session))
  {
    QuiescentKept(s, AddSession(s, token, id, session));
  }

  lemma InboxQuiescent(s: State, a: Id, inbox: seq<Id>)
    requires Inv(s) && Quiescent(s)
    ensures Quiescent(s.(responders := s.responders[a := inbox]))
  {
    QuiescentKept(s, s.(responders := s.responders[a := inbox]));
  }

  lemma CreateQuiescent(s: State, token: Id, q: Id, messages: seq<Message>, maxOutput: int, allowAi: bool, preferred: Id, now: int)
    requires Quiescent(s)
    ensures Quiescent(CreateRequest(s, token, q, messages, maxOutput, allowAi, preferred, now).0)
  {
    var (t, result) := CreateRequest(s, token, q, messages, maxOutput, allowAi, preferred, now);
    if result.Ok? {
      var id := SessionOf(s, token).value;
      var r := NewRequest(id, s.sessions[id], allowAi, preferred, messages, maxOutput, now);
      TryAssignQuiescent(s.(requests := s.requests[q := r], queue := s.queue + [q]), now);
    }
  }

  lemma RegisterQuiescent(s: State, user: Id, token: Id, id: Id)
    requires Inv(s) && Quiescent(s) && FreshSession(s, token, id)
    ensures Quiescent(Register(s, user, token, id))
  {
    QuiescentKept(s, Register(s, user, token, id));
  }

  lemma ReactQuiescent(s: State, token: Id, q: Id, reaction: Reaction, now: int)
    requires Inv(s) && Quiescent(s)
    ensures Quiescent(React(s, token, q, reaction, now).0)
  {
    if React(s, token, q, reaction, now).1.Ok? {
      ReactionQuiescent(s, q, reaction);
    }
  }

  lemma ReactionQuiescent(s: State, q: Id, reaction: Reaction)
    requires QueueOk(s) && AvailableOk(s) && Quiescent(s) && q in s.requests
    ensures Quiescent(ApplyReaction(s, q, reaction))
  {
    QuietChange(s, ApplyReaction(s, q, reaction), q, s.requests[q].(reaction := reaction));
  }

  lemma SubscribersQuiescent(s: State, q: Id, subscribers: map<Id, Subscriber>)
    requires Inv(s) && Quiescent(s) && q in s.requests
    ensures Quiescent(s.(requests := s.requests[q := s.requests[q].(subscribers := subscribers)]))
  {
    var r := s.requests[q].(subscribers := subscribers);
    QuietChange(s, s.(requests := s.requests[q := r]), q, r);
  }

  lemma SubscribeQuiescent(s: State, q: Id, sub: Id)
    requires Inv(s) && Quiescent(s)
    ensures Quiescent(Subscribe(s, q, sub).0) && Quiescent(Unsubscribe(s, q, sub)) && Quiescent(ReceiveEvent(s, q, sub))
  {
    if q in s.requests {
      var r := s.requests[q];
      SubscribersQuiescent(s, q, r.subscribers[sub := Subscriber(Replay(r), |Replay(r)|, false, IsTerminal(r.status))]);
      SubscribersQuiescent(s, q, r.subscribers - {sub});
      SubscribersQuiescent(s, q, TakeOne(r.subscribers, sub));
    }
  }

  lemma CancelQuiescent(s: State, q: Id, now: int)
    requires Inv(s) && Quiescent(s)
    ensures Quiescent(Cancel(s, q, now).0)
  {
    if q in s.requests {
      AbandonQuiescent(s, q, now);
    }
  }

  lemma FinishQuiescent(s: State, a: Id, now: int)
    requires Inv(s) && Quiescent(s)
    ensures Quiescent(Finish(s, a, now).0)
  {
    if a in s.active && s.active[a] in s.requests {
      CompleteQuiescent(s, s.active[a], Stop, now);
    }
  }

  lemma InboxesQuiescent(s: State, token: Id, a: Id)
    requires Inv(s) && Quiescent(s)
    ensures Quiescent(RegisterResponder(s, token).0) && Quiescent(ReceiveAssignment(s, a))
  {
    if SessionOf(s, token).Some? {
      InboxQuiescent(s, SessionOf(s, token).value, []);
    }
    if a in s.responders && s.responders[a] != [] {
      InboxQuiescent(s, a, s.responders[a][1..]);
    }
  }

  /** Every operation leaves no compatible pair waiting if there was none before, except a disconnect
      that puts a request back into the queue. */
  lemma StepQuiescent(s: State, op: Op)
    requires Inv(s) && Enabled(s, op) && Quiescent(s) && !DisconnectRequeues(s, op)
    ensures Quiescent(Step(s, op))
  {
    if op.DoRegister? || op.DoLogin? || op.DoGuest? || op.DoPersona? {
      SignInQuiescent(s, op);
    } else if op.DoSubscribe? || op.DoUnsubscribe? || op.DoReceiveEvent? {
      SubscribeQuiescent(s, op.request, op.sub);
    } else {
      LifecycleQuiescent(s, op);
    }
  }

  lemma SignInQuiescent(s: State, op: Op)
    requires op.DoRegister? || op.DoLogin? || op.DoGuest? || op.DoPersona?
    requires Inv(s) && Enabled(s, op) && Quiescent(s)
    ensures Quiescent(Step(s, op))
  {
    match op
    case DoRegister(user, token, id) => RegisterQuiescent(s, user, token, id);
    case DoLogin(user, token, id) => SessionQuiescent(s, token, id, Session(user, false, Human));
    case DoGuest(token, id) => SessionQuiescent(s, token, id, Session("", true, Human));
    case DoPersona(token, id) => SessionQuiescent(s, token, id, Session("", true, AiPersona));
  }

  lemma LifecycleQuiescent(s: State, op: Op)
    requires !op.DoRegister? && !op.DoLogin? && !op.DoGuest? && !op.DoPersona?
    requires !op.DoSubscribe? && !op.DoUnsubscribe? && !op.DoReceiveEvent?
    requires Inv(s) && Enabled(s, op) && Quiescent(s) && !DisconnectRequeues(s, op)
    ensures Quiescent(Step(s, op))
  {
    match op
    case DoCreate(token, q, messages, max, allow, now) => CreateQuiescent(s, token, q, messages, max, allow, "", now);
    case DoCreateTargeted(token, q, messages, max, preferred, now) =>
      CreateQuiescent(s, token, q, messages, max, false, preferred, now);
    case DoCancel(q, now) => CancelQuiescent(s, q, now);
    case DoReact(token, q, reaction, now) => ReactQuiescent(s, token, q, reaction, now);
    case DoRegisterResponder(token) => InboxesQuiescent(s, token, "");
    case DoReceiveAssignment(a) => InboxesQuiescent(s, "", a);
    case DoUnregister(a, now) => UnregisterQuiescent(s, a, now);
    case DoMarkAvailable(a, accept, now) => MarkQuiescent(s, a, accept, now);
    case DoResume(a, now) => OfferQuiescent(s, a, now);
    case DoFallback(q, now) => FallbackQuiescent(s, q, now);
    case DoSubmit(a, n, text, f, now) => SubmitQuiescent(s, a, n, text, f, now);
    case DoFinish(a, now) => FinishQuiescent(s, a, now);
    case DoSkip(a, now) => SkipQuiescent(s, a, now);
    case DoSweep(order, now, at, st) => SweepQuiescent(s, order, now, at, st);
  }

  /** `b` is available and suits the question. */
  predicate CouldTake(s: State, ask: Ask, b: Id) {
    b in s.available && b in s.sessions && Suits(ask, b, KindOrHuman(s.sessions[b].kind), AcceptsAi(s, b))
  }

  /** The exception, exactly: after such a disconnect a pair is left waiting if and only if one of the
      remaining available responders suits the request that went back. */
  lemma DisconnectLeavesPairIff(s: State, a: Id, now: int)
    requires Inv(s) && Quiescent(s) && DisconnectRequeues(s, DoUnregister(a, now))
    ensures !Quiescent(UnregisterResponder(s, a, now)) <==> exists b :: CouldTake(s, s.requests[s.active[a]].ask, b)
  {
    DisconnectsTo(s, a, now);
    RequeuedPairIff(Disconnect(s, a), s.active[a], now);
    SameTakers(s, Disconnect(s, a), a, s.requests[s.active[a]].ask);
  }

  /** Such a disconnect takes the responder off the lists and queues its request again. */
  lemma DisconnectsTo(s: State, a: Id, now: int)
    requires Inv(s) && Quiescent(s) && DisconnectRequeues(s, DoUnregister(a, now))
    ensures var t, q := Disconnect(s, a), s.active[a];
            && Inv(t) && Quiescent(t) && t.requests == s.requests && s.requests[q].status == Assigned && a !in s.available
            && UnregisterResponder(s, a, now) == Requeue(t, q, now)
  {
    HeldRequest(s, a);
    DisconnectSound(s, a);
    DisconnectQuiescent(s, a);
    UnregisterIs(s, a, now);
  }

  lemma SameTakers(s: State, t: State, a: Id, ask: Ask)
    requires a !in s.available && t == Disconnect(s, a)
    ensures (exists b :: CouldTake(s, ask, b)) <==> exists b :: CouldTake(t, ask, b)
  {
    if b :| CouldTake(s, ask, b) {
      DisconnectCouldTake(s, a, ask, b);
    }
    if b :| CouldTake(t, ask, b) {
      DisconnectCouldTake(s, a, ask, b);
    }
  }

  lemma DisconnectCouldTake(s: State, a: Id, ask: Ask, b: Id)
    requires a !in s.available
    ensures CouldTake(Disconnect(s, a), ask, b) == CouldTake(s, ask, b)
  {
    WithoutAbsent(s.available, a);
  }

  lemma RequeuedPairIff(s: State, q: Id, now: int)
    requires Inv(s) && Quiescent(s) && q in s.requests && s.requests[q].status == Assigned
    ensures !Quiescent(Requeue(s, q, now)) <==> exists b :: CouldTake(s, s.requests[q].ask, b)
  {
    RequeueSound(s, q, now);
    if b :| CouldTake(s, s.requests[q].ask, b) {
      RequeuedPair(s, q, b, now);
    } else {
      NoRequeuedPair(s, q, now);
    }
  }

  lemma RequeuedPair(s: State, q: Id, b: Id, now: int)
    requires q in s.requests && CouldTake(s, s.requests[q].ask, b)
    requires AvailableOk(s) && RosterOk(s) && AvailableOk(Requeue(s, q, now))
    ensures !Quiescent(Requeue(s, q, now))
  {
    var u := Requeue(s, q, now);
    var j :| 0 <= j < |u.available| && u.available[j] == b;
    assert Compatible(u, u.queue[|u.queue| - 1], u.available[j]);
    assert CompatibleIn(u)(u.queue[|u.queue| - 1], u.available[j]);
  }

  lemma NoRequeuedPair(s: State, q: Id, now: int)
    requires QueueOk(s) && AvailableOk(s) && Quiescent(s) && q in s.requests && s.requests[q].status == Assigned
    requires forall b :: !CouldTake(s, s.requests[q].ask, b)
    ensures Quiescent(Requeue(s, q, now))
  {
    var u := Requeue(s, q, now);
    forall i, j | 0 <= i < |u.queue| && 0 <= j < |u.available| ensures !CompatibleIn(u)(u.queue[i], u.available[j]) {
      assert u.available[j] in s.available;
      if i < |s.queue| {
        assert s.queue[i] in s.queue && s.queue[i] != q;
        assert !CompatibleIn(s)(s.queue[i], s.available[j]);
      } else {
        assert !CouldTake(s, s.requests[q].ask, u.available[j]);
      }
    }
  }
}
