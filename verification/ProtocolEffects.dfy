/** What every step of the distributed backend does, written out on the stored fields: the new row, the booked entries, the
    tasks paid off and owed, the queue and the routing keys; and what follows for who is recorded and paid. */
module ProtocolEffects {
  import opened Sequences
  import opened Domain
  import opened Protocol
  import opened ProtocolInvariant

  // ---------------------------------------------------------------- rows

  function Waiting(r: Row, now: int): Row {
    r.(status := Queued, responder := Nobody, updatedAt := now)
  }

  function GivenUp(r: Row, now: int): Row {
    r.(status := Abandoned, responder := Nobody, updatedAt := now)
  }

  /** A row whose responder never began: a targeted request is given up, any other waits again. */
  function Returned(r: Row, now: int): Row {
    if r.ask.preferred != "" then GivenUp(r, now) else Waiting(r, now)
  }

  function Ended(r: Row, status: Status, reason: Reason, now: int): Row {
    r.(status := status, finish := reason, updatedAt := now, completedAt := Some(now))
  }

  function Taken(r: Row, holder: Responder, now: int): Row {
    r.(status := Assigned, responder := holder, updatedAt := now)
  }

  /** A session as a row records it. */
  function Holder(a: Id, info: Session): Responder {
    Responder(a, info.user, info.guest, if info.kind == Unset then Human else info.kind)
  }

  predicate Fills(r: Row, text: string) {
    AnswerLength(r.fragments) + |text| == r.ask.limit
  }

  function Grown(r: Row, a: Id, n: int, text: string, now: int): Row {
    var r' := r.(fragments := r.fragments + [FragmentRow(a, n, |r.fragments| + 1, text)], charged := true, status := Streaming, updatedAt := now);
    if Fills(r, text) then Ended(r', Completed, Length, now) else r'
  }

  predicate AssignmentIsDue(r: Row, cutoff: int) {
    r.status == Assigned && r.updatedAt <= cutoff
  }

  predicate StreamIsDue(r: Row, cutoff: int) {
    r.status == Streaming && r.updatedAt <= cutoff
  }

  /** The row that a step is about, afterwards. */
  function RowAfter(s: State, e: Action): Row
    requires !e.AddSession? && !e.Create? && e.q in s.rows && (e.TryPair? ==> e.session in s.sessions)
  {
    var r := s.rows[e.q];
    match e
    case TryPair(_, a, now) =>
      if r.status == Queued && (r.ask.preferred == "" || r.ask.preferred == a) then Taken(r, Holder(a, s.sessions[a]), now) else r
    case TakeFallback(q, now) => Taken(r, Responder("fallback_" + q, "", true, Fallback), now)
    case Submit(_, a, n, text, now) => Grown(r, a, n, text, now)
    case Finish(_, _, now) => Ended(r, Completed, Stop, now)
    case Skip(_, _, now) => if r.ask.kind == AiPersona then GivenUp(r, now) else Waiting(r, now)
    case Cancel(_, now) => GivenUp(r, now)
    case ExpireAssignment(_, cutoff, now) => if AssignmentIsDue(r, cutoff) then Returned(r, now) else r
    case ExpireStream(_, _, cutoff, now) => if StreamIsDue(r, cutoff) then Ended(r, TimeoutCompleted, Partial, now) else r
    case LeaveRequest(_, now) =>
      if r.status == Assigned || r.status == Queued then Returned(r, now)
      else if r.status == Streaming then Ended(r, TimeoutCompleted, Partial, now)
      else r
    case React(_, reaction) => r.(reaction := reaction)
    case _ => r
  }

  // ---------------------------------------------------------------- books

  function Reward(q: Id, holder: Responder): seq<Entry> {
    if holder.Responder? && !holder.guest && holder.user != "" then [Entry(holder.user, q, AnswerReward, 10)] else []
  }

  function Charge(q: Id, r: Row): seq<Entry> {
    if r.fragments == [] && !r.ask.guest then [Entry(r.ask.requester, q, QuestionCharge, -5)] else []
  }

  function Worth(reaction: Reaction): int {
    match reaction
    case Like => 20
    case Dislike => 8
    case _ => 10
  }

  function Adjustment(q: Id, r: Row, reaction: Reaction): seq<Entry> {
    var delta := Worth(reaction) - Worth(r.reaction);
    if r.responder.Responder? && !r.responder.guest && r.responder.user != "" && delta != 0
    then [Entry(r.responder.user, q, ReactionAdjustment, delta)] else []
  }

  /** What a step books. */
  function Entries(s: State, e: Action): seq<Entry>
    requires !e.AddSession? && !e.Create? && e.q in s.rows
  {
    var r := s.rows[e.q];
    match e
    case Submit(q, _, _, text, _) => Charge(q, r) + if Fills(r, text) then Reward(q, r.responder) else []
    case Finish(q, _, _) => Reward(q, r.responder)
    case ExpireStream(q, _, cutoff, _) => if StreamIsDue(r, cutoff) then Reward(q, r.responder) else []
    case LeaveRequest(q, _) => if r.status == Streaming then Reward(q, r.responder) else []
    case React(q, reaction) => Adjustment(q, r, reaction)
    case _ => []
  }

  // ---------------------------------------------------------------- tasks

  /** The task that a step carries out. */
  function Settled(e: Action): multiset<Task> {
    match e
    case SetRouting(q) => multiset{Announce(q)}
    case PushQueue(q) => multiset{Enqueue(q)}
    case PairFails(q, a) => multiset{Pair(q, a)}
    case TryPair(q, a, _) => multiset{Pair(q, a)}
    case RemoveQueued(q) => multiset{Unqueue(q)}
    case DeleteRoute(q) => multiset{ClearRoute(q)}
    case ExpireAssignment(q, cutoff, _) => multiset{ExpireAssigned(q, cutoff)}
    case ExpireStream(q, seen, cutoff, _) => multiset{ExpireStreaming(q, seen, cutoff)}
    case LeaveRequest(q, _) => multiset{DropResponder(q)}
    case _ => multiset{}
  }

  /** What is left to do in Redis for a row that was returned: to delete its keys or to queue it again. */
  function ReturnOwes(q: Id, r: Row): multiset<Task> {
    if r.ask.preferred != "" then multiset{ClearRoute(q)} else multiset{Enqueue(q)}
  }

  /** The tasks that a step leaves to do. */
  function Owed(s: State, e: Action): multiset<Task>
    requires !e.AddSession? && !e.Create? && e.q in s.rows
  {
    var r := s.rows[e.q];
    match e
    case SetRouting(q) => multiset{Enqueue(q)}
    case RunScript(q, a, _, _) => multiset{Pair(q, a)}
    case PairFails(q, _) => multiset{Enqueue(q)}
    case Submit(q, _, _, text, _) => if Fills(r, text) then multiset{ClearRoute(q)} else multiset{}
    case Finish(q, _, _) => multiset{ClearRoute(q)}
    case Skip(q, _, _) => if r.ask.kind == AiPersona then multiset{ClearRoute(q)} else multiset{Enqueue(q)}
    case TakeFallback(q, _) => multiset{Unqueue(q)}
    case Cancel(q, _) => multiset{ClearRoute(q), Unqueue(q)}
    case SelectAssigned(q, cutoff) => multiset{ExpireAssigned(q, cutoff)}
    case ExpireAssignment(q, cutoff, _) => if AssignmentIsDue(r, cutoff) then ReturnOwes(q, r) else multiset{}
    case SelectStreaming(q, cutoff) => multiset{ExpireStreaming(q, r, cutoff)}
    case ExpireStream(q, _, cutoff, _) => if StreamIsDue(r, cutoff) then multiset{ClearRoute(q)} else multiset{}
    case FindActive(q, _) => multiset{DropResponder(q)}
    case LeaveRequest(q, _) =>
      if r.status == Assigned || r.status == Queued then ReturnOwes(q, r)
      else if r.status == Streaming then multiset{ClearRoute(q)}
      else multiset{}
    case _ => multiset{}
  }

  function QueueAfter(s: State, e: Action): seq<Id> {
    match e
    case PushQueue(q) => s.queue + [q]
    case RunScript(q, _, _, _) => RemoveFirst(s.queue, q)
    case RemoveQueued(q) => Without(s.queue, q)
    case _ => s.queue
  }

  function RoutingAfter(s: State, e: Action): map<Id, Route> {
    match e
    case SetRouting(q) => if q in s.rows then s.routing[q := Route(s.rows[q].ask.kind, s.rows[q].ask.allowAi, s.rows[q].ask.preferred)] else s.routing
    case DeleteRoute(q) => s.routing - {q}
    case _ => s.routing
  }

  // ---------------------------------------------------------------- every step exactly

  /** `t` is `s` with row `q`, the bookings and the tasks given. */
  ghost predicate Does(s: State, t: State, q: Id, r: Row, entries: seq<Entry>, owed: multiset<Task>) {
    && t.sessions == s.sessions && t.queue == s.queue && t.routing == s.routing
    && t.rows == s.rows[q := r] && t.ledger == s.ledger + entries && t.tasks == s.tasks + owed
  }

  lemma ReturnDoes(s: State, q: Id, now: int)
    requires q in s.rows
    ensures Does(s, GiveUpTx(s, q, now), q, Returned(s.rows[q], now), [], ReturnOwes(q, s.rows[q]))
  {
  }

  lemma CompleteDoes(s: State, q: Id, responder: Responder, reason: Reason, now: int)
    requires q in s.rows && !IsTerminal(s.rows[q].status) && s.rows[q].fragments != []
    ensures Does(s, CompleteTx(s, q, responder, reason, now), q,
                 Ended(s.rows[q], if reason == Partial then TimeoutCompleted else Completed, reason, now), Reward(q, responder), multiset{ClearRoute(q)})
  {
  }

  /** The whole step: the row, the books, the tasks, the queue and the keys are exactly as listed. */
  ghost predicate Exactly(s: State, e: Action, t: State)
    requires !e.AddSession? && !e.Create? && e.q in s.rows && (e.TryPair? ==> e.session in s.sessions)
  {
    && t.sessions == s.sessions && t.queue == QueueAfter(s, e) && t.routing == RoutingAfter(s, e)
    && t.rows == s.rows[e.q := RowAfter(s, e)] && t.ledger == s.ledger + Entries(s, e)
    && t.tasks == s.tasks - Settled(e) + Owed(s, e)
  }

  lemma KeysExactly(s: State, e: Action)
    requires e.SetRouting? || e.DeleteRoute?
    requires Enabled(s, e) && e.q in s.rows
    ensures Exactly(s, e, Next(s, e))
  {
  }

  lemma QueueExactly(s: State, e: Action)
    requires e.PushQueue? || e.RunScript?
    requires Enabled(s, e) && e.q in s.rows
    ensures Exactly(s, e, Next(s, e))
  {
  }

  lemma FailExactly(s: State, e: Action)
    requires e.PairFails?
    requires Enabled(s, e) && e.q in s.rows
    ensures Exactly(s, e, Next(s, e))
  {
  }

  lemma RemovalExactly(s: State, e: Action)
    requires e.RemoveQueued?
    requires Enabled(s, e) && e.q in s.rows
    ensures Exactly(s, e, Next(s, e))
  {
  }

  lemma SelectExactly(s: State, e: Action)
    requires e.SelectAssigned? || e.SelectStreaming?
    requires Enabled(s, e)
    ensures Exactly(s, e, Next(s, e))
  {
  }

  lemma FindExactly(s: State, e: Action)
    requires e.FindActive?
    requires Enabled(s, e)
    ensures Exactly(s, e, Next(s, e))
  {
  }

  lemma PairExactly(s: State, e: Action)
    requires e.TryPair?
    requires Enabled(s, e) && e.q in s.rows
    ensures Exactly(s, e, Next(s, e))
  {
  }

  lemma SkipExactly(s: State, e: Action)
    requires e.Skip?
    requires Enabled(s, e)
    ensures Exactly(s, e, Next(s, e))
  {
  }

  lemma TakeExactly(s: State, e: Action)
    requires e.TakeFallback?
    requires Enabled(s, e)
    ensures Exactly(s, e, Next(s, e))
  {
  }

  lemma CancelExactly(s: State, e: Action)
    requires e.Cancel?
    requires Enabled(s, e)
    ensures Exactly(s, e, Next(s, e))
  {
  }

  lemma ReactExactly(s: State, e: Action)
    requires e.React?
    requires Enabled(s, e)
    ensures Exactly(s, e, Next(s, e))
  {
  }

  lemma FinishExactly(s: State, e: Action)
    requires e.Finish? && Enabled(s, e)
    ensures Exactly(s, e, Next(s, e))
  {
    CompleteDoes(s, e.q, s.rows[e.q].responder, Stop, e.now);
  }

  lemma SubmitExactly(s: State, e: Action)
    requires e.Submit? && Enabled(s, e) && RowOk(s.rows[e.q])
    ensures Exactly(s, e, Next(s, e))
  {
    SubmitDoes(s, e.q, e.session, e.clientSeq, e.text, e.now);
  }

  lemma SubmitDoes(s: State, q: Id, a: Id, n: int, text: string, now: int)
    requires q in s.rows && RowOk(s.rows[q]) && !IsTerminal(s.rows[q].status)
    requires AnswerLength(s.rows[q].fragments) + |text| <= s.rows[q].ask.limit
    ensures var r := s.rows[q];
            Does(s, SubmitTx(s, q, a, n, text, now), q, Grown(r, a, n, text, now), Charge(q, r) + (if Fills(r, text) then Reward(q, r.responder) else []),
                 if Fills(r, text) then multiset{ClearRoute(q)} else multiset{})
  {
    var r := s.rows[q];
    var t, v := SetRow(ChargeTx(s, q), q, AppendRow(r, a, n, text, now)), SubmitTx(s, q, a, n, text, now);
    MaxIsCount(r.fragments);
    StoreDoes(s, q, a, n, text, now);
    if Fills(r, text) {
      CompleteDoes(t, q, r.responder, Length, now);
      DoesThen(s, t, v, q, t.rows[q], Charge(q, r), v.rows[q], Reward(q, r.responder), multiset{ClearRoute(q)});
    }
  }

  lemma DoesThen(s: State, t: State, v: State, q: Id, r: Row, entries: seq<Entry>, r': Row, more: seq<Entry>, owed: multiset<Task>)
    requires Does(s, t, q, r, entries, multiset{}) && Does(t, v, q, r', more, owed)
    ensures Does(s, v, q, r', entries + more, owed)
  {
    assert v.ledger == s.ledger + (entries + more);
  }

  lemma StoreDoes(s: State, q: Id, a: Id, n: int, text: string, now: int)
    requires q in s.rows && (s.rows[q].charged <==> s.rows[q].fragments != [])
    ensures Does(s, SetRow(ChargeTx(s, q), q, AppendRow(s.rows[q], a, n, text, now)), q, AppendRow(s.rows[q], a, n, text, now),
                 Charge(q, s.rows[q]), multiset{})
  {
  }

  lemma ExpireExactly(s: State, e: Action)
    requires e.ExpireAssignment? && Enabled(s, e)
    ensures Exactly(s, e, Next(s, e))
  {
    ReturnDoes(DoneWith(s, ExpireAssigned(e.q, e.cutoff)), e.q, e.now);
  }

  lemma ExpireStreamExactly(s: State, e: Action)
    requires e.ExpireStream? && Enabled(s, e) && RowOk(s.rows[e.q]) && s.rows[e.q].responder == e.seen.responder
    ensures Exactly(s, e, Next(s, e))
  {
    if StreamIsDue(s.rows[e.q], e.cutoff) {
      CompleteDoes(DoneWith(s, ExpireStreaming(e.q, e.seen, e.cutoff)), e.q, e.seen.responder, Partial, e.now);
    }
  }

  lemma LeaveExactly(s: State, e: Action)
    requires e.LeaveRequest? && Enabled(s, e) && RowOk(s.rows[e.q])
    ensures Exactly(s, e, Next(s, e))
  {
    var t := DoneWith(s, DropResponder(e.q));
    ReturnDoes(t, e.q, e.now);
    if s.rows[e.q].status == Streaming {
      CompleteDoes(t, e.q, s.rows[e.q].responder, Partial, e.now);
    }
  }

  /** Whatever a step names exists. */
  lemma NamedExists(s: State, e: Action)
    requires TasksOk(s) && RoutingOk(s) && Enabled(s, e) && !e.AddSession? && !e.Create?
    ensures e.q in s.rows
    ensures e.ExpireStream? ==> s.rows[e.q].responder == e.seen.responder
  {
    match e
    case PushQueue(q) => assert TaskOk(s, Enqueue(q));
    case PairFails(q, a) => assert TaskOk(s, Pair(q, a));
    case TryPair(q, a, _) => assert TaskOk(s, Pair(q, a));
    case RemoveQueued(q) => assert TaskOk(s, Unqueue(q));
    case DeleteRoute(q) => assert TaskOk(s, ClearRoute(q));
    case ExpireStream(q, seen, cutoff, _) => assert TaskOk(s, ExpireStreaming(q, seen, cutoff));
    case _ =>
  }

  /** Every step does exactly what is listed for it. */
  lemma StepExactly(s: State, e: Action)
    requires Inv(s) && Enabled(s, e) && !e.AddSession? && !e.Create?
    ensures e.q in s.rows && Exactly(s, e, Next(s, e))
  {
    NamedExists(s, e);
    assert RowOk(s.rows[e.q]);
    NamedStepExactly(s, e);
  }

  lemma NamedStepExactly(s: State, e: Action)
    requires Enabled(s, e) && !e.AddSession? && !e.Create? && e.q in s.rows && RowOk(s.rows[e.q])
    requires e.ExpireStream? ==> s.rows[e.q].responder == e.seen.responder
    ensures Exactly(s, e, Next(s, e))
  {
    if e.SetRouting? || e.DeleteRoute? {
      KeysExactly(s, e);
    } else if e.PushQueue? || e.RunScript? {
      QueueExactly(s, e);
    } else if e.PairFails? {
      FailExactly(s, e);
    } else if e.RemoveQueued? {
      RemovalExactly(s, e);
    } else if e.SelectAssigned? || e.SelectStreaming? {
      SelectExactly(s, e);
    } else if e.FindActive? {
      FindExactly(s, e);
    } else {
      CallExactly(s, e);
    }
  }

  lemma CallExactly(s: State, e: Action)
    requires e.TryPair? || e.Skip? || e.TakeFallback? || e.Cancel? || e.React? || e.Finish? || e.Submit? || e.ExpireAssignment?
             || e.ExpireStream? || e.LeaveRequest?
    requires Enabled(s, e) && e.q in s.rows && RowOk(s.rows[e.q])
    requires e.ExpireStream? ==> s.rows[e.q].responder == e.seen.responder
    ensures Exactly(s, e, Next(s, e))
  {
    match e
    case TryPair(_, _, _) => PairExactly(s, e);
    case Skip(_, _, _) => SkipExactly(s, e);
    case TakeFallback(_, _) => TakeExactly(s, e);
    case Cancel(_, _) => CancelExactly(s, e);
    case React(_, _) => ReactExactly(s, e);
    case Finish(_, _, _) => FinishExactly(s, e);
    case Submit(_, _, _, _, _) => SubmitExactly(s, e);
    case ExpireAssignment(_, _, _) => ExpireExactly(s, e);
    case ExpireStream(_, _, _, _) => ExpireStreamExactly(s, e);
    case LeaveRequest(_, _) => LeaveExactly(s, e);
  }

  /** A new question waits to be announced; a new session changes nothing else. */
  lemma CreateExactly(s: State, q: Id, ask: Ask, now: int)
    requires Enabled(s, Create(q, ask, now))
    ensures var t := Next(s, Create(q, ask, now));
            t == s.(rows := s.rows[q := Row(ask, Queued, Nobody, false, NoReason, Neutral, now, None, [])], tasks := s.tasks + multiset{Announce(q)})
  {
  }
}
