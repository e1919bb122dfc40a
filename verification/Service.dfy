/** The in-memory service itself: one object whose methods update its fields in place.

    Each method is proved to take the object from one state to the state the specification gives, and
    to keep the service invariant. */
module InMemoryService {
  import opened Sequences
  import opened Domain
  import opened Sums
  import opened ServiceSpec
  import opened ServiceInvariant
  import opened ServiceOperations
  import opened ServiceEffects
  import Matching

  class Service {
    var users: set<Id>
    var tokens: map<Id, Id>
    var sessions: map<Id, Session>
    var ledger: seq<Entry>
    var requests: map<Id, Request>
    var queue: seq<Id>
    var active: map<Id, Id>
    var available: seq<Id>
    var responders: map<Id, seq<Id>>
    var acceptAi: map<Id, bool>

    ghost function St(): State
      reads this
    {
      State(users, tokens, sessions, ledger, requests, queue, active, available, responders, acceptAi)
    }

    ghost predicate Valid()
      reads this
    {
      Inv(St())
    }

    constructor ()
      ensures St() == EMPTY && Valid()
    {
      users, tokens, sessions, ledger := {}, map[], map[], [];
      requests, queue, active, available := map[], [], map[], [];
      responders, acceptAi := map[], map[];
      new;
      EmptyInv();
    }

    // -------------------------------------------------------------- lists

    method RemoveAvailableLocked(a: Id)
      modifies this`available
      ensures available == Without(old(available), a)
    {
      var next := [];
      for i := 0 to |available|
        invariant available == old(available)
        invariant next == Without(available[..i], a)
      {
        assert available[..i + 1] == available[..i] + [available[i]];
        WithoutAppend(available[..i], available[i], a);
        if available[i] != a {
          next := next + [available[i]];
        }
      }
      assert available[..|available|] == available;
      available := next;
    }

    method RemoveQueuedLocked(q: Id)
      modifies this`queue
      ensures queue == Without(old(queue), q)
    {
      var next := [];
      for i := 0 to |queue|
        invariant queue == old(queue)
        invariant next == Without(queue[..i], q)
      {
        assert queue[..i + 1] == queue[..i] + [queue[i]];
        WithoutAppend(queue[..i], queue[i], q);
        if queue[i] != q {
          next := next + [queue[i]];
        }
      }
      assert queue[..|queue|] == queue;
      queue := next;
    }

    // -------------------------------------------------------------- balances

    /** The balance of `user`, added up from the ledger and the frozen points of its live requests. */
    method BalanceLocked(user: Id) returns (b: Balance)
      ensures b == BalanceOf(St(), user)
    {
      var total := 0;
      for i := 0 to |ledger|
        invariant total == Total(ledger[..i], user)
      {
        assert ledger[..i + 1][..i] == ledger[..i];
        if ledger[i].user == user {
          total := total + ledger[i].delta;
        }
      }
      assert ledger[..|ledger|] == ledger;
      var held := 0;
      var rest := requests;
      while |rest| != 0
        invariant held + Sum(rest, HeldFor(user)) == Held(requests, user)
        decreases |rest|
      {
        var q :| q in rest.Keys;
        SumRemove(rest, q, HeldFor(user));
        SmallerWithout(rest, q);
        var r := rest[q];
        if r.ask.requester == user && r.frozen > 0 && !IsTerminal(r.status) {
          held := held + r.frozen;
        }
        rest := rest - {q};
      }
      b := Balance(total, held, total - held);
    }

    // -------------------------------------------------------------- matching

    method CompatiblePairLocked() returns (i: int, j: int)
      ensures var next := Matching.MemoryNext(queue, available, CompatibleIn(St()));
              if next.None? then i < 0 && j < 0 else i == next.value.0 && j == next.value.1
    {
      ghost var ok := CompatibleIn(St());
      i := 0;
      while i < |queue|
        invariant 0 <= i <= |queue|
        invariant Matching.NoPair(queue[..i], available, ok)
      {
        var q := queue[i];
        j := 0;
        while j < |available|
          invariant 0 <= j <= |available|
          invariant forall k :: 0 <= k < j ==> !ok(q, available[k])
        {
          if Suitable(q, available[j]) {
            assert forall k :: 0 <= k < i ==> !ok(queue[..i][k], available[j]);
            Matching.MemoryNextIs(queue, available, ok, i, j);
            return;
          }
          j := j + 1;
        }
        i := i + 1;
      }
      assert queue[..i] == queue;
      Matching.MemoryNextNone(queue, available, ok);
      i, j := -1, -1;
    }

    function Suitable(q: Id, a: Id): bool
      reads this
    {
      && q in requests && !IsTerminal(requests[q].status) && requests[q].status != Streaming
      && a !in active && a in responders && a in sessions
      && Suits(requests[q].ask, a, KindOrHuman(sessions[a].kind), a in acceptAi ==> acceptAi[a])
    }

    method RequeueLocked(q: Id, now: int)
      requires q in requests
      modifies this
      ensures St() == Requeue(old(St()), q, now)
    {
      var r := requests[q];
      if r.responder.Responder? {
        active := active - {r.responder.session};
      }
      requests := requests[q := RequeueRequest(r, now)];
      queue := queue + [q];
    }

    method TryAssignLocked(now: int)
      modifies this
      ensures St() == TryAssign(old(St()), now)
    {
      while true
        invariant TryAssign(St(), now) == TryAssign(old(St()), now)
        decreases |available|
      {
        var i, j := CompatiblePairLocked();
        if i < 0 || j < 0 {
          return;
        }
        AssignOneLocked(i, j, now);
      }
    }

    /** One turn of the matching loop. */
    method AssignOneLocked(i: nat, j: nat, now: int)
      requires i < |queue| && j < |available| && Compatible(St(), queue[i], available[j])
      modifies this
      ensures St() == AssignNext(old(St()), i, j, now) && |available| < old(|available|)
    {
      var q, a := queue[i], available[j];
      queue := queue[..i] + queue[i + 1..];
      available := available[..j] + available[j + 1..];
      var session := sessions[a];
      requests := requests[q := AssignRequest(requests[q], Responder(a, session.user, session.guest, KindOrHuman(session.kind)), now)];
      active := active[a := q];
      assert St() == Assign(old(St()), i, j, now);
      if |responders[a]| < INBOX_CAPACITY {
        responders := responders[a := responders[a] + [q]];
      } else {
        RequeueLocked(q, now);
      }
    }

    // -------------------------------------------------------------- transitions

    method AbandonLocked(q: Id, now: int)
      requires q in requests
      modifies this
      ensures St() == Abandon(old(St()), q, now)
    {
      RemoveQueuedLocked(q);
      var r := requests[q];
      if r.responder.Responder? {
        active := active - {r.responder.session};
      }
      requests := requests[q := AbandonRequest(r, now)];
    }

    method CompleteLocked(q: Id, reason: Reason, now: int)
      requires q in requests
      modifies this
      ensures St() == Complete(old(St()), q, reason, now)
    {
      var r := requests[q];
      if IsTerminal(r.status) {
        return;
      }
      if r.responder.Responder? {
        active := active - {r.responder.session};
      }
      requests := requests[q := CompleteRequest(r, reason, now)];
      if r.fragments != [] && r.responder.Responder? && !r.responder.guest && r.responder.user != "" {
        ledger := ledger + [Entry(r.responder.user, q, AnswerReward, BASE_ANSWER_REWARD)];
      }
    }

    // -------------------------------------------------------------- requester operations

    method MeasureInput(messages: seq<Message>) returns (size: nat)
      ensures size == InputSize(messages)
    {
      size := 0;
      for i := 0 to |messages|
        invariant size == InputSize(messages[..i])
      {
        assert messages[..i + 1][..i] == messages[..i];
        size := size + |messages[i].content|;
      }
      assert messages[..|messages|] == messages;
    }

    method CreateRequestLocked(token: Id, q: Id, messages: seq<Message>, maxOutput: int, allowAi: bool, preferred: Id, now: int) returns (result: Result<Id>)
      modifies this
      ensures (St(), result) == ServiceSpec.CreateRequest(old(St()), token, q, messages, maxOutput, allowAi, preferred, now)
    {
      var size := MeasureInput(messages);
      if size > INPUT_LIMIT {
        return Err(InputTooLarge);
      }
      if token !in tokens || tokens[token] !in sessions {
        return Err(Unauthorized);
      }
      var id := tokens[token];
      var session := sessions[id];
      if preferred != "" && KindOrHuman(session.kind) != AiPersona {
        return Err(Unauthorized);
      }
      if !session.guest {
        var balance := BalanceLocked(session.user);
        if balance.available < QUESTION_COST {
          return Err(InsufficientPoints);
        }
      }
      EnqueueLocked(q, NewRequest(id, session, allowAi, preferred, messages, maxOutput, now), now);
      return Ok(q);
    }

    method EnqueueLocked(q: Id, r: Request, now: int)
      modifies this
      ensures St() == TryAssign(old(St()).(requests := old(requests)[q := r], queue := old(queue) + [q]), now)
    {
      requests := requests[q := r];
      queue := queue + [q];
      TryAssignLocked(now);
    }

    method CreateRequest(token: Id, q: Id, messages: seq<Message>, maxOutput: int, allowAi: bool, preferred: Id, now: int) returns (result: Result<Id>)
      requires Valid() && q !in requests && (preferred != "" ==> !allowAi)
      modifies this
      ensures Valid() && (St(), result) == ServiceSpec.CreateRequest(old(St()), token, q, messages, maxOutput, allowAi, preferred, now)
    {
      CreateSound(St(), token, q, messages, maxOutput, allowAi, preferred, now);
      result := CreateRequestLocked(token, q, messages, maxOutput, allowAi, preferred, now);
    }

    method CreateTargetedRequest(token: Id, q: Id, messages: seq<Message>, maxOutput: int, preferred: Id, now: int) returns (result: Result<Id>)
      requires Valid() && q !in requests
      modifies this
      ensures Valid() && (St(), result) == ServiceSpec.CreateTargetedRequest(old(St()), token, q, messages, maxOutput, preferred, now)
    {
      if preferred == "" {
        return Err(ResponderUnavailable);
      }
      result := CreateRequest(token, q, messages, maxOutput, false, preferred, now);
    }

    method CancelBeforeFirstFragment(q: Id, now: int) returns (done: bool)
      requires Valid()
      modifies this
      ensures Valid() && (St(), done) == Cancel(old(St()), q, now)
    {
      CancelSound(St(), q, now);
      if q !in requests || IsTerminal(requests[q].status) || requests[q].fragments != [] {
        return false;
      }
      AbandonLocked(q, now);
      return true;
    }

    method ApplyReactionLocked(q: Id, reaction: Reaction)
      requires q in requests
      modifies this
      ensures St() == ApplyReaction(old(St()), q, reaction)
    {
      var r := requests[q];
      var delta := RewardFor(reaction) - RewardFor(r.reaction);
      requests := requests[q := r.(reaction := reaction)];
      if Paid(r) && delta != 0 {
        ledger := ledger + [Entry(r.responder.user, q, ReactionAdjustment, delta)];
      }
    }

    method ReactLocked(token: Id, q: Id, reaction: Reaction, now: int) returns (result: Result<Balance>)
      modifies this
      ensures (St(), result) == ServiceSpec.React(old(St()), token, q, reaction, now)
    {
      if reaction == Unknown {
        return Err(InvalidArgument);
      }
      if token !in tokens || tokens[token] !in sessions {
        return Err(Unauthorized);
      }
      if q !in requests {
        return Err(RequestNotFound);
      }
      var id, r := tokens[token], requests[q];
      var session := sessions[id];
      if !IsRequester(id, session, r.ask) || !IsTerminal(r.status) {
        return Err(ReactionNotAllowed);
      }
      if r.completedAt.None? || now - r.completedAt.value > REACTION_WINDOW {
        return Err(ReactionNotAllowed);
      }
      ApplyReactionLocked(q, reaction);
      if session.guest {
        return Ok(NO_BALANCE);
      }
      var balance := BalanceLocked(if Paid(r) then r.responder.user else session.user);
      return Ok(balance);
    }

    method React(token: Id, q: Id, reaction: Reaction, now: int) returns (result: Result<Balance>)
      requires Valid()
      modifies this
      ensures Valid() && (St(), result) == ServiceSpec.React(old(St()), token, q, reaction, now)
      ensures result.Ok? <==> MayReact(old(St()), token, q, reaction, now)
    {
      ReactSound(St(), token, q, reaction, now);
      ReactExactly(St(), token, q, reaction, now);
      result := ReactLocked(token, q, reaction, now);
    }

    // -------------------------------------------------------------- responder operations

    method UnregisterResponderLocked(a: Id, now: int)
      modifies this
      ensures St() == ServiceSpec.UnregisterResponder(old(St()), a, now)
    {
      responders := responders - {a};
      acceptAi := acceptAi - {a};
      RemoveAvailableLocked(a);
      if a in active && active[a] in requests && !IsTerminal(requests[active[a]].status) {
        var q := active[a];
        if requests[q].fragments == [] {
          if requests[q].ask.preferred != "" {
            AbandonLocked(q, now);
          } else {
            RequeueLocked(q, now);
          }
        } else {
          CompleteLocked(q, Partial, now);
        }
      }
    }

    method UnregisterResponder(a: Id, now: int)
      requires Valid()
      modifies this
      ensures Valid() && St() == ServiceSpec.UnregisterResponder(old(St()), a, now)
    {
      UnregisterSound(St(), a, now);
      UnregisterResponderLocked(a, now);
    }

    method OfferLocked(a: Id, now: int)
      modifies this
      ensures St() == Offer(old(St()), a, now)
    {
      if a in active {
        return;
      }
      if a !in available {
        available := available + [a];
      }
      TryAssignLocked(now);
    }

    method MarkResponderAvailableLocked(a: Id, accept: bool, now: int) returns (result: Result<()>)
      modifies this
      ensures (St(), result) == MarkAvailable(old(St()), a, accept, now)
    {
      if a !in responders {
        return Err(ResponderUnavailable);
      }
      acceptAi := acceptAi[a := accept];
      OfferLocked(a, now);
      return Ok(());
    }

    method MarkResponderAvailable(a: Id, accept: bool, now: int) returns (result: Result<()>)
      requires Valid()
      modifies this
      ensures Valid() && (St(), result) == MarkAvailable(old(St()), a, accept, now)
    {
      MarkAvailableSound(St(), a, accept, now);
      result := MarkResponderAvailableLocked(a, accept, now);
    }

    method ResumeResponder(a: Id, now: int) returns (result: Result<()>)
      requires Valid()
      modifies this
      ensures Valid() && (St(), result) == ServiceSpec.ResumeResponder(old(St()), a, now)
    {
      if a !in responders {
        return Err(ResponderUnavailable);
      }
      OfferSound(St(), a, now);
      OfferLocked(a, now);
      return Ok(());
    }

    method AcquireFallbackAssignmentLocked(q: Id, now: int) returns (session: Option<Id>)
      modifies this
      ensures (St(), session) == AcquireFallback(old(St()), q, now)
    {
      if q !in requests || requests[q].ask.preferred != "" || !requests[q].ask.allowAi
         || requests[q].status != Queued || requests[q].fragments != [] {
        return None;
      }
      RemoveQueuedLocked(q);
      var a := FallbackSession(q);
      requests := requests[q := AssignRequest(requests[q], Responder(a, "", true, Fallback), now)];
      active := active[a := q];
      return Some(a);
    }

    method AcquireFallbackAssignment(q: Id, now: int) returns (session: Option<Id>)
      requires Valid()
      modifies this
      ensures Valid() && (St(), session) == AcquireFallback(old(St()), q, now)
    {
      FallbackSound(St(), q, now);
      session := AcquireFallbackAssignmentLocked(q, now);
    }

    method SubmitFragmentLocked(a: Id, clientSeq: int, text: string, fragment: Id, now: int) returns (result: Result<(Fragment, bool)>)
      modifies this
      ensures (St(), result) == ServiceSpec.SubmitFragment(old(St()), a, clientSeq, text, fragment, now)
    {
      if clientSeq <= 0 || text == "" {
        return Err(InvalidArgument);
      }
      if a !in active {
        return Err(NoActiveAssignment);
      }
      var q := active[a];
      if q !in requests {
        return Err(RequestNotFound);
      }
      var r, key := requests[q], SeqKey(a, clientSeq);
      if IsTerminal(r.status) {
        return Err(AlreadyCompleted);
      }
      if key in r.seen {
        return Ok((r.seen[key], true));
      }
      var length := AnswerLength(r.fragments);
      if length + |text| > r.ask.limit {
        return Err(OutputTooLarge);
      }
      var f := Fragment(fragment, a, clientSeq, text, now);
      CommitLocked(q, f);
      return Ok((f, false));
    }

    method SubmitFragment(a: Id, clientSeq: int, text: string, fragment: Id, now: int) returns (result: Result<(Fragment, bool)>)
      requires Valid()
      modifies this
      ensures Valid() && (St(), result) == ServiceSpec.SubmitFragment(old(St()), a, clientSeq, text, fragment, now)
    {
      SubmitSound(St(), a, clientSeq, text, fragment, now);
      result := SubmitFragmentLocked(a, clientSeq, text, fragment, now);
    }

    /** The text of an answer, put together fragment by fragment, and its length. */
    method AnswerLength(fragments: seq<Fragment>) returns (n: nat)
      ensures n == |AnswerText(fragments)|
    {
      var text := "";
      for i := 0 to |fragments|
        invariant text == AnswerText(fragments[..i])
      {
        assert fragments[..i + 1][..i] == fragments[..i];
        text := text + fragments[i].text;
      }
      assert fragments[..|fragments|] == fragments;
      n := |text|;
    }

    method CommitLocked(q: Id, f: Fragment)
      requires q in requests && f.clientSeq > 0
      modifies this
      ensures St() == Commit(old(St()), q, f)
    {
      var r := requests[q];
      requests := requests[q := AppendFragment(r, f)];
      if !r.charged && !r.ask.guest {
        ledger := ledger + [Entry(r.ask.requester, q, QuestionCharge, -QUESTION_COST)];
      }
      var length := AnswerLength(requests[q].fragments);
      if length >= r.ask.limit {
        CompleteLocked(q, Length, f.at);
      }
    }

    method Finish(a: Id, now: int) returns (result: Result<()>)
      requires Valid()
      modifies this
      ensures Valid() && (St(), result) == ServiceSpec.Finish(old(St()), a, now)
      ensures a in old(active) ==> old(active)[a] in old(requests)
      ensures result.Ok? <==> a in old(active) && old(requests)[old(active)[a]].fragments != []
    {
      FinishSound(St(), a, now);
      FinishExactly(St(), a, now);
      if a !in active {
        return Err(NoActiveAssignment);
      }
      if active[a] !in requests {
        return Err(RequestNotFound);
      }
      if requests[active[a]].fragments == [] {
        return Err(InvalidArgument);
      }
      CompleteLocked(active[a], Stop, now);
      return Ok(());
    }

    method SkipLocked(a: Id, now: int) returns (result: Result<()>)
      modifies this
      ensures (St(), result) == ServiceSpec.Skip(old(St()), a, now)
    {
      if a !in active {
        return Err(NoActiveAssignment);
      }
      var q := active[a];
      if q !in requests {
        return Err(RequestNotFound);
      }
      var r := requests[q];
      if r.fragments != [] {
        return Err(CannotSkipCommitted);
      }
      if r.ask.preferred != "" || r.ask.kind == AiPersona {
        AbandonLocked(q, now);
        return Ok(());
      }
      RequeueLocked(q, now);
      TryAssignLocked(now);
      return Ok(());
    }

    method Skip(a: Id, now: int) returns (result: Result<()>)
      requires Valid()
      modifies this
      ensures Valid() && (St(), result) == ServiceSpec.Skip(old(St()), a, now)
    {
      SkipSound(St(), a, now);
      result := SkipLocked(a, now);
    }

    // -------------------------------------------------------------- timeouts

    method SweepOneLocked(q: Id, now: int, assignedTimeout: int, streamingTimeout: int) returns (changed: bool)
      modifies this
      ensures (St(), changed) == SweepOne(old(St()), q, now, assignedTimeout, streamingTimeout)
    {
      if q !in requests {
        return false;
      }
      var r := requests[q];
      if r.status == Assigned && r.fragments == [] && assignedTimeout > 0 && now - r.updatedAt >= assignedTimeout {
        if r.ask.preferred != "" {
          AbandonLocked(q, now);
        } else {
          RequeueLocked(q, now);
        }
        return true;
      }
      if r.status == Streaming && r.fragments != [] && streamingTimeout > 0 && now - r.updatedAt >= streamingTimeout {
        CompleteLocked(q, Partial, now);
        return true;
      }
      return false;
    }

    /** The sweep visits every request once, in whatever order the iteration over the map yields, and lists the requests
        it takes. */
    method SweepAllLocked(now: int, assignedTimeout: int, streamingTimeout: int) returns (changed: seq<Id>, ghost order: seq<Id>)
      modifies this
      ensures (St(), changed != []) == SweepAll(old(St()), order, now, assignedTimeout, streamingTimeout)
      ensures NoDup(order) && forall q :: q in order <==> q in old(requests)
      ensures changed == Hits(old(St()), order, now, assignedTimeout, streamingTimeout)
    {
      ghost var s := St();
      changed, order := [], [];
      var rest := requests.Keys;
      while rest != {}
        invariant NoDup(order) && forall q :: q in s.requests <==> q in order || q in rest
        invariant forall q :: q in order ==> q !in rest
        invariant SweepAll(s, order, now, assignedTimeout, streamingTimeout) == (St(), changed != [])
        invariant changed == Hits(s, order, now, assignedTimeout, streamingTimeout)
        decreases |rest|
      {
        var q :| q in rest;
        HitsAppend(s, order, q, now, assignedTimeout, streamingTimeout);
        var hit := SweepOneLocked(q, now, assignedTimeout, streamingTimeout);
        order := order + [q];
        rest := rest - {q};
        if hit {
          changed := changed + [q];
        }
      }
    }

    /** The sweep takes exactly the requests that are due and returns them, each once. */
    method SweepTimeouts(now: int, assignedTimeout: int, streamingTimeout: int) returns (changed: seq<Id>, ghost order: seq<Id>)
      requires Valid()
      modifies this
      ensures Valid() && St() == ServiceSpec.SweepTimeouts(old(St()), order, now, assignedTimeout, streamingTimeout)
      ensures Enabled(old(St()), DoSweep(order, now, assignedTimeout, streamingTimeout))
      ensures NoDup(changed)
      ensures forall q :: q in changed <==> q in old(requests) && Due(old(requests)[q], now, assignedTimeout, streamingTimeout)
    {
      ghost var s := St();
      changed, order := SweepAllLocked(now, assignedTimeout, streamingTimeout);
      if changed != [] {
        TryAssignLocked(now);
      }
      SweepSound(s, order, now, assignedTimeout, streamingTimeout);
      HitsAreDue(s, order, now, assignedTimeout, streamingTimeout);
    }

    // -------------------------------------------------------------- subscribers

    method SubscribeLocked(q: Id, sub: Id) returns (result: Result<()>)
      modifies this
      ensures (St(), result) == ServiceSpec.Subscribe(old(St()), q, sub)
    {
      if q !in requests {
        return Err(RequestNotFound);
      }
      var r := requests[q];
      var log := [];
      var answer := AnswerText(r.fragments);
      if answer != "" {
        log := log + [Text(answer)];
      }
      if IsTerminal(r.status) {
        log := log + [Done(r.finish)];
      }
      assert log == Replay(r);
      requests := requests[q := r.(subscribers := r.subscribers[sub := Subscriber(log, |log|, false, IsTerminal(r.status))])];
      return Ok(());
    }

    method Subscribe(q: Id, sub: Id) returns (result: Result<()>)
      requires Valid()
      modifies this
      ensures Valid() && (St(), result) == ServiceSpec.Subscribe(old(St()), q, sub)
    {
      SubscribeSound(St(), q, sub);
      result := SubscribeLocked(q, sub);
    }

    method UnsubscribeLocked(q: Id, sub: Id)
      modifies this
      ensures St() == ServiceSpec.Unsubscribe(old(St()), q, sub)
    {
      if q in requests {
        requests := requests[q := requests[q].(subscribers := requests[q].subscribers - {sub})];
      }
    }

    method Unsubscribe(q: Id, sub: Id)
      requires Valid()
      modifies this
      ensures Valid() && St() == ServiceSpec.Unsubscribe(old(St()), q, sub)
    {
      UnsubscribeSound(St(), q, sub);
      UnsubscribeLocked(q, sub);
    }

    method TakeEvent(q: Id, sub: Id)
      modifies this
      ensures St() == ServiceSpec.ReceiveEvent(old(St()), q, sub)
    {
      if q in requests {
        requests := requests[q := requests[q].(subscribers := TakeOne(requests[q].subscribers, sub))];
      }
    }

    /** The subscriber takes the next event from its channel. */
    method ReceiveEvent(q: Id, sub: Id)
      requires Valid()
      modifies this
      ensures Valid() && St() == ServiceSpec.ReceiveEvent(old(St()), q, sub)
    {
      ReceiveEventSound(St(), q, sub);
      TakeEvent(q, sub);
    }

    // -------------------------------------------------------------- accounts and sessions

    method CreateSessionLocked(token: Id, id: Id, session: Session)
      modifies this`tokens, this`sessions
      ensures St() == AddSession(old(St()), token, id, session)
    {
      tokens := tokens[token := id];
      sessions := sessions[id := session];
    }

    method Register(user: Id, token: Id, id: Id)
      requires Valid() && Enabled(St(), DoRegister(user, token, id))
      modifies this
      ensures Valid() && St() == ServiceSpec.Register(old(St()), user, token, id)
    {
      RegisterSound(St(), user, token, id);
      users := users + {user};
      ledger := ledger + [Entry(user, "", SignupGrant, SIGNUP_GRANT)];
      CreateSessionLocked(token, id, Session(user, false, Human));
    }

    method Login(user: Id, token: Id, id: Id)
      requires Valid() && Enabled(St(), DoLogin(user, token, id))
      modifies this
      ensures Valid() && St() == Step(old(St()), DoLogin(user, token, id))
    {
      AddSessionSound(St(), token, id, Session(user, false, Human));
      CreateSessionLocked(token, id, Session(user, false, Human));
    }

    method GuestSession(token: Id, id: Id)
      requires Valid() && Enabled(St(), DoGuest(token, id))
      modifies this
      ensures Valid() && St() == Step(old(St()), DoGuest(token, id))
    {
      AddSessionSound(St(), token, id, Session("", true, Human));
      CreateSessionLocked(token, id, Session("", true, Human));
    }

    method PersonaSession(token: Id, id: Id)
      requires Valid() && Enabled(St(), DoPersona(token, id))
      modifies this
      ensures Valid() && St() == Step(old(St()), DoPersona(token, id))
    {
      AddSessionSound(St(), token, id, Session("", true, AiPersona));
      CreateSessionLocked(token, id, Session("", true, AiPersona));
    }

    /** The responder takes the next assignment from its channel. */
    method ReceiveAssignment(a: Id) returns (q: Option<Id>)
      requires Valid()
      modifies this
      ensures Valid() && St() == ServiceSpec.ReceiveAssignment(old(St()), a)
      ensures q == if a in old(responders) && old(responders)[a] != [] then Some(old(responders)[a][0]) else None
    {
      ReceiveAssignmentSound(St(), a);
      if a !in responders || responders[a] == [] {
        return None;
      }
      q := Some(responders[a][0]);
      responders := responders[a := responders[a][1..]];
    }

    method RegisterResponder(token: Id) returns (result: Result<Id>)
      requires Valid()
      modifies this
      ensures Valid() && (St(), result) == ServiceSpec.RegisterResponder(old(St()), token)
    {
      RegisterResponderSound(St(), token);
      if token !in tokens || tokens[token] !in sessions {
        return Err(Unauthorized);
      }
      responders := responders[tokens[token] := []];
      return Ok(tokens[token]);
    }
  }
}
