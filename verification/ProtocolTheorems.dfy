/** Guarantees of the distributed backend over every interleaving. */
module ProtocolTheorems {
  import opened Sequences
  import opened Domain
  import opened Protocol
  import opened ProtocolInvariant
  import opened ProtocolProofs

  lemma InvariantInEveryRun(es: seq<Action>)
    requires ValidRun(EMPTY, es)
    ensures Inv(Run(EMPTY, es))
  {
    EmptyInv();
    RunSound(EMPTY, es);
  }

  /** Whatever the instances do next, an answer only grows, an ended request stays as it is, and a request
      with an answer keeps its responder. */
  lemma AnswersOnlyGrow(es: seq<Action>, more: seq<Action>, q: Id)
    requires ValidRun(EMPTY, es) && ValidRun(Run(EMPTY, es), more) && q in Run(EMPTY, es).rows
    ensures var s, s' := Run(EMPTY, es), Run(Run(EMPTY, es), more);
            q in s'.rows && RowEvolves(s.rows[q], s'.rows[q])
  {
    InvariantInEveryRun(es);
    RunSound(Run(EMPTY, es), more);
  }

  // ---------------------------------------------------------------- no lost request

  /** Postgres calls `q` queued, and no call in flight stands for it: only a queue entry can. */
  ghost predicate Strands(s: State, q: Id) {
    && q in s.rows && s.rows[q].status == Queued
    && Enqueue(q) !in s.tasks && Announce(q) !in s.tasks && forall a :: Pair(q, a) !in s.tasks
  }

  /** The change from `s` to `s'` does not concern `p`. */
  ghost predicate LeavesAlone(s: State, s': State, p: Id) {
    && (p in s'.rows <==> p in s.rows) && (p in s.rows ==> s'.rows[p] == s.rows[p])
    && (forall t: Task :: t.q == p ==> s'.tasks[t] == s.tasks[t])
    && (p in s'.queue <==> p in s.queue)
  }

  lemma AloneTransitive(s: State, t: State, u: State, p: Id)
    requires LeavesAlone(s, t, p) && LeavesAlone(t, u, p)
    ensures LeavesAlone(s, u, p)
  {
  }

  /** A change of one row, of tasks about that row and of its place in the queue leaves all others alone. */
  lemma ElementaryAlone(s: State, q: Id, r: Row, x: Task, p: Id)
    requires p != q && x.q == q
    ensures LeavesAlone(s, SetRow(s, q, r), p) && LeavesAlone(s, Owe(s, x), p) && LeavesAlone(s, DoneWith(s, x), p)
  {
  }

  lemma RequeueAlone(s: State, q: Id, now: int, p: Id)
    requires p != q && q in s.rows
    ensures LeavesAlone(s, RequeueTx(s, q, now), p) && LeavesAlone(s, AbandonTx(s, q, now), p)
    ensures LeavesAlone(s, GiveUpTx(s, q, now), p)
  {
  }

  lemma CompleteAlone(s: State, q: Id, responder: Responder, reason: Reason, now: int, p: Id)
    requires p != q && q in s.rows
    ensures LeavesAlone(s, CompleteTx(s, q, responder, reason, now), p)
  {
  }

  lemma SubmitAlone(s: State, q: Id, a: Id, n: int, text: string, now: int, p: Id)
    requires p != q && q in s.rows
    ensures LeavesAlone(s, SubmitTx(s, q, a, n, text, now), p)
  {
    var t := SetRow(ChargeTx(s, q), q, AppendRow(s.rows[q], a, n, text, now));
    assert LeavesAlone(s, t, p);
    CompleteAlone(t, q, s.rows[q].responder, Length, now, p);
    AloneTransitive(s, t, CompleteTx(t, q, s.rows[q].responder, Length, now), p);
  }

  lemma QueueAlone(s: State, q: Id, p: Id)
    requires p != q
    ensures p in RemoveFirst(s.queue, q) <==> p in s.queue
    ensures p in Without(s.queue, q) <==> p in s.queue
    ensures p in s.queue + [q] <==> p in s.queue
  {
    RemoveFirstMembers(s.queue, q);
    WithoutMembers(s.queue, q);
  }

  lemma PairAlone(s: State, q: Id, a: Id, now: int, p: Id)
    requires a in s.sessions && q != p
    ensures LeavesAlone(s, TryPairTx(DoneWith(s, Pair(q, a)), q, a, now), p)
  {
  }

  /** Steps that change the queue. */
  predicate QueueStep(e: Action) {
    e.PushQueue? || e.RunScript? || e.RemoveQueued?
  }

  /** Steps that only owe or pay off tasks, or concern sessions, keys and reactions. */
  predicate SideStep(e: Action) {
    e.AddSession? || e.Create? || e.SetRouting? || e.PairFails? || e.DeleteRoute? || e.SelectAssigned? || e.SelectStreaming?
    || e.FindActive? || e.React?
  }

  lemma QueueStepAlone(s: State, e: Action, p: Id)
    requires Enabled(s, e) && QueueStep(e) && e.q != p
    ensures LeavesAlone(s, Next(s, e), p)
  {
    QueueAlone(s, e.q, p);
  }

  lemma SideStepAlone(s: State, e: Action, p: Id)
    requires Enabled(s, e) && SideStep(e) && (e.AddSession? || e.q != p)
    ensures LeavesAlone(s, Next(s, e), p)
  {
    if e.SelectAssigned? || e.SelectStreaming? || e.FindActive? {
      FoundAlone(s, e, p);
    } else if e.SetRouting? || e.DeleteRoute? || e.PairFails? {
      KeyStepAlone(s, e, p);
    } else {
      RecordAlone(s, e, p);
    }
  }

  lemma FoundAlone(s: State, e: Action, p: Id)
    requires e.SelectAssigned? || e.SelectStreaming? || e.FindActive?
    requires Enabled(s, e) && e.q != p
    ensures LeavesAlone(s, Next(s, e), p)
  {
  }

  lemma KeyStepAlone(s: State, e: Action, p: Id)
    requires e.SetRouting? || e.DeleteRoute? || e.PairFails?
    requires Enabled(s, e) && e.q != p
    ensures LeavesAlone(s, Next(s, e), p)
  {
  }

  lemma RecordAlone(s: State, e: Action, p: Id)
    requires e.AddSession? || e.Create? || e.React?
    requires Enabled(s, e) && (e.AddSession? || e.q != p)
    ensures LeavesAlone(s, Next(s, e), p)
  {
  }

  lemma ExpireAssignmentAlone(s: State, q: Id, cutoff: int, now: int, p: Id)
    requires Enabled(s, ExpireAssignment(q, cutoff, now)) && q != p
    ensures LeavesAlone(s, Next(s, ExpireAssignment(q, cutoff, now)), p)
  {
    var t := DoneWith(s, ExpireAssigned(q, cutoff));
    RequeueAlone(t, q, now, p);
    ElementaryAlone(s, q, s.rows[q], ExpireAssigned(q, cutoff), p);
    assert LeavesAlone(t, ExpireTx(t, q, cutoff, now), p);
    AloneTransitive(s, t, ExpireTx(t, q, cutoff, now), p);
  }

  lemma ExpireStreamAlone(s: State, q: Id, seen: Row, cutoff: int, now: int, p: Id)
    requires Enabled(s, ExpireStream(q, seen, cutoff, now)) && q != p
    ensures LeavesAlone(s, Next(s, ExpireStream(q, seen, cutoff, now)), p)
  {
    var t := DoneWith(s, ExpireStreaming(q, seen, cutoff));
    CompleteAlone(t, q, seen.responder, Partial, now, p);
    ElementaryAlone(s, q, s.rows[q], ExpireStreaming(q, seen, cutoff), p);
    AloneTransitive(s, t, CompleteTx(t, q, seen.responder, Partial, now), p);
  }

  lemma LeaveAlone(s: State, q: Id, now: int, p: Id)
    requires Enabled(s, LeaveRequest(q, now)) && q != p
    ensures LeavesAlone(s, Next(s, LeaveRequest(q, now)), p)
  {
    var t := DoneWith(s, DropResponder(q));
    RequeueAlone(t, q, now, p);
    CompleteAlone(t, q, s.rows[q].responder, Partial, now, p);
    ElementaryAlone(s, q, s.rows[q], DropResponder(q), p);
    AloneTransitive(s, t, GiveUpTx(t, q, now), p);
    AloneTransitive(s, t, CompleteTx(t, q, s.rows[q].responder, Partial, now), p);
  }

  lemma OthersLeftAlone(s: State, e: Action, p: Id)
    requires Enabled(s, e) && (e.AddSession? || e.q != p)
    ensures LeavesAlone(s, Next(s, e), p)
  {
    if QueueStep(e) {
      QueueStepAlone(s, e, p);
    } else if SideStep(e) {
      SideStepAlone(s, e, p);
    } else if e.ExpireAssignment? {
      ExpireAssignmentAlone(s, e.q, e.cutoff, e.now, p);
    } else if e.ExpireStream? {
      ExpireStreamAlone(s, e.q, e.seen, e.cutoff, e.now, p);
    } else if e.LeaveRequest? {
      LeaveAlone(s, e.q, e.now, p);
    } else {
      CallAlone(s, e, p);
    }
  }

  lemma CallAlone(s: State, e: Action, p: Id)
    requires e.TryPair? || e.Submit? || e.Finish? || e.Skip? || e.TakeFallback? || e.Cancel?
    requires Enabled(s, e) && e.q != p
    ensures LeavesAlone(s, Next(s, e), p)
  {
    match e
    case TryPair(q, a, now) => PairAlone(s, q, a, now, p);
    case Submit(q, a, n, text, now) => SubmitAlone(s, q, a, n, text, now, p);
    case Finish(q, a, now) => CompleteAlone(s, q, s.rows[q].responder, Stop, now, p);
    case Skip(q, a, now) => RequeueAlone(s, q, now, p);
    case TakeFallback(q, now) =>
    case Cancel(q, now) => RequeueAlone(s, q, now, p);
  }

  lemma AloneStaysTracked(s: State, s': State, q: Id)
    requires LeavesAlone(s, s', q)
    ensures Lost(s, q) <==> Lost(s', q)
  {
    assert forall t: Task :: t.q == q ==> (t in s'.tasks <==> t in s.tasks);
    assert Enqueue(q) in s'.tasks <==> Enqueue(q) in s.tasks;
    assert Announce(q) in s'.tasks <==> Announce(q) in s.tasks;
    assert forall a :: Pair(q, a) in s'.tasks <==> Pair(q, a) in s.tasks;
  }

  /** A task that gets owed keeps the request tracked. */
  lemma OwedIsTracked(s: State, q: Id, a: Id)
    ensures Enqueue(q) in s.tasks || Announce(q) in s.tasks || Pair(q, a) in s.tasks || q in s.queue ==> !Lost(s, q)
  {
  }

  /** A step about `q` itself, other than a removal, leaves it tracked if it leaves it queued. */
  lemma OwnStepKeepsTrack(s: State, e: Action)
    requires Inv(s) && Enabled(s, e) && !e.AddSession? && !e.RemoveQueued? && !Lost(s, e.q)
    ensures !Lost(Next(s, e), e.q)
  {
    if e.PushQueue? || e.RunScript? || e.Create? || e.SetRouting? || e.PairFails? {
      OwingStep(s, e);
    } else if e.ExpireAssignment? {
      ExpireKeepsTrack(s, e.q, e.cutoff, e.now);
    } else if e.ExpireStream? {
      ExpireStreamKeepsTrack(s, e.q, e.seen, e.cutoff, e.now);
    } else if e.LeaveRequest? {
      LeaveKeepsTrack(s, e.q, e.now);
    } else if e.Skip? {
      SkipKeepsTrack(s, e.q, e.session, e.now);
    } else if e.Submit? {
      SubmittedIsNotQueued(s, e.q, e.session, e.clientSeq, e.text, e.now);
    } else {
      LeavingStep(s, e);
    }
  }

  lemma OwingStep(s: State, e: Action)
    requires Enabled(s, e) && (e.PushQueue? || e.RunScript? || e.Create? || e.SetRouting? || e.PairFails?)
    ensures !Lost(Next(s, e), e.q)
  {
    OwedIsTracked(Next(s, e), e.q, if e.RunScript? then e.session else "");
  }

  lemma LeavingStep(s: State, e: Action)
    requires e.TryPair? || e.DeleteRoute? || e.SelectAssigned? || e.SelectStreaming? || e.FindActive? || e.Finish?
             || e.TakeFallback? || e.Cancel? || e.React?
    requires Inv(s) && Enabled(s, e) && !Lost(s, e.q)
    ensures !Lost(Next(s, e), e.q)
  {
    if e.TryPair? {
      PairKeepsTrack(s, e.q, e.session, e.now);
    } else if e.DeleteRoute? {
      RouteKeepsTrack(s, e.q);
    } else {
      NotQueuedAfter(s, e);
    }
  }

  lemma RouteKeepsTrack(s: State, q: Id)
    requires Enabled(s, DeleteRoute(q)) && !Lost(s, q)
    ensures !Lost(Next(s, DeleteRoute(q)), q)
  {
    SameTokens(s, Next(s, DeleteRoute(q)), q);
  }

  lemma PairKeepsTrack(s: State, q: Id, a: Id, now: int)
    requires TasksOk(s) && Enabled(s, TryPair(q, a, now))
    ensures !Lost(Next(s, TryPair(q, a, now)), q)
  {
    assert TaskOk(s, Pair(q, a));
  }

  lemma NotQueuedAfter(s: State, e: Action)
    requires e.SelectAssigned? || e.SelectStreaming? || e.FindActive? || e.Finish? || e.TakeFallback? || e.Cancel? || e.React?
    requires Enabled(s, e) && RowOk(s.rows[e.q])
    ensures e.q in Next(s, e).rows && Next(s, e).rows[e.q].status != Queued
  {
  }

  lemma SubmittedIsNotQueued(s: State, q: Id, a: Id, n: int, text: string, now: int)
    requires q in s.rows
    ensures q in SubmitTx(s, q, a, n, text, now).rows && SubmitTx(s, q, a, n, text, now).rows[q].status != Queued
  {
  }

  lemma SameTokens(s: State, s': State, q: Id)
    requires s'.rows == s.rows && s'.queue == s.queue && !Lost(s, q)
    requires forall t :: t in s.tasks && (t.Enqueue? || t.Pair? || t.Announce?) ==> t in s'.tasks
    ensures !Lost(s', q)
  {
  }

  lemma GiveUpKeepsTrack(s: State, q: Id, now: int)
    requires q in s.rows
    ensures !Lost(GiveUpTx(s, q, now), q)
  {
    if s.rows[q].ask.preferred == "" {
      assert Enqueue(q) in GiveUpTx(s, q, now).tasks;
    }
  }

  lemma LeaveKeepsTrack(s: State, q: Id, now: int)
    requires Inv(s) && Enabled(s, LeaveRequest(q, now)) && !Lost(s, q)
    ensures !Lost(Next(s, LeaveRequest(q, now)), q)
  {
    assert RowOk(s.rows[q]);
    GiveUpKeepsTrack(DoneWith(s, DropResponder(q)), q, now);
  }

  lemma ExpireKeepsTrack(s: State, q: Id, cutoff: int, now: int)
    requires q in s.rows && !Lost(s, q)
    ensures !Lost(ExpireTx(DoneWith(s, ExpireAssigned(q, cutoff)), q, cutoff, now), q)
  {
    var t := DoneWith(s, ExpireAssigned(q, cutoff));
    GiveUpKeepsTrack(t, q, now);
    SameTokens(s, t, q);
  }

  lemma ExpireStreamKeepsTrack(s: State, q: Id, seen: Row, cutoff: int, now: int)
    requires Inv(s) && Enabled(s, ExpireStream(q, seen, cutoff, now)) && !Lost(s, q)
    ensures !Lost(Next(s, ExpireStream(q, seen, cutoff, now)), q)
  {
    StillTheResponder(s, ExpireStreaming(q, seen, cutoff));
    StreamedIsNotQueued(s, q, seen, cutoff, now);
  }

  lemma StreamedIsNotQueued(s: State, q: Id, seen: Row, cutoff: int, now: int)
    requires Enabled(s, ExpireStream(q, seen, cutoff, now)) && TaskOk(s, ExpireStreaming(q, seen, cutoff)) && RowOk(s.rows[q])
    ensures var s' := Next(s, ExpireStream(q, seen, cutoff, now)); q in s'.rows && s'.rows[q].status != Queued
  {
  }

  lemma SkipKeepsTrack(s: State, q: Id, a: Id, now: int)
    requires Enabled(s, Skip(q, a, now))
    ensures !Lost(Next(s, Skip(q, a, now)), q)
  {
    if s.rows[q].ask.kind != AiPersona {
      assert Enqueue(q) in Next(s, Skip(q, a, now)).tasks;
    }
  }

  lemma RemovalStrandsIff(s: State, q: Id)
    requires Enabled(s, RemoveQueued(q))
    ensures Lost(Next(s, RemoveQueued(q)), q) <==> Strands(s, q)
  {
    var s' := Next(s, RemoveQueued(q));
    WithoutMembers(s.queue, q);
    assert forall a :: Pair(q, a) in s'.tasks <==> Pair(q, a) in s.tasks;
    assert Enqueue(q) in s'.tasks <==> Enqueue(q) in s.tasks;
    assert Announce(q) in s'.tasks <==> Announce(q) in s.tasks;
  }

  /** The one step that loses a request, exactly: a removal from the queue that hits a request which is queued and
      stands nowhere but in the queue. */
  lemma StepLosesIff(s: State, e: Action, q: Id)
    requires Inv(s) && Enabled(s, e) && !Lost(s, q)
    ensures Lost(Next(s, e), q) <==> e == RemoveQueued(q) && Strands(s, q)
  {
    if e.AddSession? || e.q != q {
      OthersLeftAlone(s, e, q);
      AloneStaysTracked(s, Next(s, e), q);
    } else if e.RemoveQueued? {
      RemovalStrandsIff(s, q);
    } else {
      OwnStepKeepsTrack(s, e);
    }
  }

  // ---------------------------------------------------------------- which removals are owed

  predicate TakesOver(e: Action, q: Id) {
    e.TakeFallback? && e.q == q
  }

  /** Every take-over of `q` by the fallback is followed at once by its removal from the queue, as if both were one
      step.  The removal that a cancellation owes may come at any time. */
  ghost predicate AtOnce(es: seq<Action>, q: Id) {
    forall i :: 0 <= i < |es| - 1 && TakesOver(es[i], q) ==> es[i + 1] == RemoveQueued(q)
  }

  /** The run has just taken `q` over and not yet removed it. */
  ghost predicate JustTaken(es: seq<Action>, q: Id) {
    es != [] && TakesOver(es[|es| - 1], q)
  }

  /** A removal of `q` is owed only for an ended request, or by the take-over just made. */
  ghost predicate OwedInOrder(s: State, q: Id, justTaken: bool) {
    if justTaken then q in s.rows && s.rows[q].status == Assigned && s.tasks[Unqueue(q)] <= 1
    else Unqueue(q) in s.tasks ==> q in s.rows && IsTerminal(s.rows[q].status)
  }

  lemma TakeOverOwes(s: State, q: Id, now: int)
    requires Enabled(s, TakeFallback(q, now)) && OwedInOrder(s, q, false)
    ensures OwedInOrder(Next(s, TakeFallback(q, now)), q, true)
  {
  }

  lemma RemovalPays(s: State, q: Id, justTaken: bool)
    requires Enabled(s, RemoveQueued(q)) && OwedInOrder(s, q, justTaken)
    ensures OwedInOrder(Next(s, RemoveQueued(q)), q, false)
  {
  }

  /** A step on `q` that is neither a take-over nor a cancellation owes no removal. */
  lemma OwesNoRemoval(s: State, e: Action)
    requires Inv(s) && Enabled(s, e) && !e.AddSession? && !e.TakeFallback? && !e.Cancel?
    ensures Next(s, e).tasks[Unqueue(e.q)] <= s.tasks[Unqueue(e.q)]
  {
    if QueueStep(e) || e.SetRouting? || e.DeleteRoute? || e.PairFails? {
      RedisOwes(s, e);
    } else if e.SelectAssigned? || e.SelectStreaming? || e.FindActive? {
      FoundOwes(s, e);
    } else if e.Submit? {
      SubmitOwes(s, e.q, e.session, e.clientSeq, e.text, e.now);
    } else if e.ExpireAssignment? {
      ExpireOwes(s, e.q, e.cutoff, e.now);
    } else if e.LeaveRequest? {
      LeaveOwes(s, e.q, e.now);
    } else {
      CallOwes(s, e);
    }
  }

  lemma RedisOwes(s: State, e: Action)
    requires QueueStep(e) || e.SetRouting? || e.DeleteRoute? || e.PairFails?
    requires Enabled(s, e)
    ensures Next(s, e).tasks[Unqueue(e.q)] <= s.tasks[Unqueue(e.q)]
  {
  }

  lemma FoundOwes(s: State, e: Action)
    requires e.SelectAssigned? || e.SelectStreaming? || e.FindActive?
    requires Enabled(s, e)
    ensures Next(s, e).tasks[Unqueue(e.q)] <= s.tasks[Unqueue(e.q)]
  {
  }

  lemma CallOwes(s: State, e: Action)
    requires e.Create? || e.TryPair? || e.Finish? || e.Skip? || e.ExpireStream? || e.React?
    requires Enabled(s, e)
    ensures Next(s, e).tasks[Unqueue(e.q)] <= s.tasks[Unqueue(e.q)]
  {
    if e.Finish? {
      CompleteOwes(s, e.q, s.rows[e.q].responder, Stop, e.now);
    } else if e.ExpireStream? {
      CompleteOwes(DoneWith(s, ExpireStreaming(e.q, e.seen, e.cutoff)), e.q, e.seen.responder, Partial, e.now);
    }
  }

  lemma CompleteOwes(s: State, q: Id, responder: Responder, reason: Reason, now: int)
    requires q in s.rows
    ensures CompleteTx(s, q, responder, reason, now).tasks[Unqueue(q)] == s.tasks[Unqueue(q)]
  {
  }

  lemma SubmitOwes(s: State, q: Id, a: Id, n: int, text: string, now: int)
    requires q in s.rows
    ensures SubmitTx(s, q, a, n, text, now).tasks[Unqueue(q)] == s.tasks[Unqueue(q)]
  {
  }

  lemma ExpireOwes(s: State, q: Id, cutoff: int, now: int)
    requires q in s.rows
    ensures ExpireTx(DoneWith(s, ExpireAssigned(q, cutoff)), q, cutoff, now).tasks[Unqueue(q)] == s.tasks[Unqueue(q)]
  {
  }

  lemma LeaveOwes(s: State, q: Id, now: int)
    requires Enabled(s, LeaveRequest(q, now))
    ensures Next(s, LeaveRequest(q, now)).tasks[Unqueue(q)] == s.tasks[Unqueue(q)]
  {
  }

  lemma OtherStepOwes(s: State, e: Action, q: Id)
    requires Inv(s) && Enabled(s, e) && OwedInOrder(s, q, false) && !TakesOver(e, q) && e != RemoveQueued(q)
    ensures OwedInOrder(Next(s, e), q, false)
  {
    if e.AddSession? || e.q != q {
      OthersLeftAlone(s, e, q);
    } else {
      StepSound(s, e);
      if e.Cancel? {
        CancelEnds(s, q, e.now);
      } else {
        OwesNoRemoval(s, e);
      }
    }
  }

  lemma CancelEnds(s: State, q: Id, now: int)
    requires Enabled(s, Cancel(q, now))
    ensures var s' := Next(s, Cancel(q, now)); q in s'.rows && s'.rows[q].status == Abandoned
  {
  }

  lemma {:induction false} RemovalsInOrder(es: seq<Action>, q: Id)
    requires ValidRun(EMPTY, es) && AtOnce(es, q)
    ensures OwedInOrder(Run(EMPTY, es), q, JustTaken(es, q))
    decreases |es|
  {
    if es != [] {
      var n := |es| - 1;
      var before, e := es[..n], es[n];
      RemovalsInOrder(before, q);
      InvariantInEveryRun(before);
      if e == RemoveQueued(q) {
        RemovalPays(Run(EMPTY, before), q, JustTaken(before, q));
      } else if TakesOver(e, q) {
        TakeOverOwes(Run(EMPTY, before), q, e.now);
      } else {
        OtherStepOwes(Run(EMPTY, before), e, q);
      }
    }
  }

  // ---------------------------------------------------------------- the theorems

  /** With the fallback's commit and its removal from the queue as one step, in every interleaving of everything else,
      each request that Postgres calls queued is in the Redis queue, in the hands of a pairing call, or about to be
      enqueued.  Removals owed by cancellations may come arbitrarily late. */
  lemma {:induction false} NoLostRequest(es: seq<Action>, q: Id)
    requires ValidRun(EMPTY, es) && AtOnce(es, q)
    ensures !Lost(Run(EMPTY, es), q)
    decreases |es|
  {
    if es != [] {
      var n := |es| - 1;
      var before := es[..n];
      NoLostRequest(before, q);
      InvariantInEveryRun(before);
      RemovalsInOrder(before, q);
      StepLosesIff(Run(EMPTY, before), es[n], q);
    }
  }

  lemma {:induction false} CancelledStaysEnded(es: seq<Action>, q: Id, i: nat)
    requires ValidRun(EMPTY, es) && i < |es| && es[i].Cancel? && es[i].q == q
    ensures q in Run(EMPTY, es).rows && IsTerminal(Run(EMPTY, es).rows[q].status)
    decreases |es|
  {
    var n := |es| - 1;
    InvariantInEveryRun(es[..n]);
    if i == n {
      CancelEnds(Run(EMPTY, es[..n]), q, es[n].now);
    } else {
      CancelledStaysEnded(es[..n], q, i);
      StepSound(Run(EMPTY, es[..n]), es[n]);
    }
  }

  /** How a request gets lost, exactly.  A step loses it if and only if it is a removal that hits a request which is
      queued and stands only in the queue.  That removal is owed by a take-over of the fallback that was not removed at
      once, never by a cancellation. */
  lemma LostExactlyByLateRemoval(es: seq<Action>, e: Action, q: Id)
    requires ValidRun(EMPTY, es) && Enabled(Run(EMPTY, es), e) && !Lost(Run(EMPTY, es), q)
    ensures Lost(Next(Run(EMPTY, es), e), q) <==> e == RemoveQueued(q) && Strands(Run(EMPTY, es), q)
    ensures Lost(Next(Run(EMPTY, es), e), q) ==>
              && (exists i :: 0 <= i < |es| - 1 && TakesOver(es[i], q) && es[i + 1] != RemoveQueued(q))
              && (forall i :: 0 <= i < |es| && es[i].Cancel? ==> es[i].q != q)
  {
    InvariantInEveryRun(es);
    StepLosesIff(Run(EMPTY, es), e, q);
    if Lost(Next(Run(EMPTY, es), e), q) {
      OwedByTakeOver(es, q);
    }
  }

  /** A removal that is owed for a queued request comes from a take-over that was not removed at once. */
  lemma OwedByTakeOver(es: seq<Action>, q: Id)
    requires ValidRun(EMPTY, es) && Unqueue(q) in Run(EMPTY, es).tasks
    requires q in Run(EMPTY, es).rows && Run(EMPTY, es).rows[q].status == Queued
    ensures exists i :: 0 <= i < |es| - 1 && TakesOver(es[i], q) && es[i + 1] != RemoveQueued(q)
    ensures forall i :: 0 <= i < |es| && es[i].Cancel? ==> es[i].q != q
  {
    assert !AtOnce(es, q) by {
      if AtOnce(es, q) {
        RemovalsInOrder(es, q);
      }
    }
    forall i | 0 <= i < |es| && es[i].Cancel? ensures es[i].q != q {
      if es[i].q == q {
        CancelledStaysEnded(es, q, i);
      }
    }
  }

  // ---------------------------------------------------------------- the late removal can happen

  lemma Extend(s: State, es: seq<Action>, e: Action)
    requires ValidRun(s, es) && Enabled(Run(s, es), e)
    ensures ValidRun(s, es + [e]) && Run(s, es + [e]) == Next(Run(s, es), e)
  {
    assert (es + [e])[..|es|] == es;
  }

  const QUESTION := Ask("", "ses", true, Human, true, "", [], 10)

  /** A guest's question is stored. */
  lemma IsStored() returns (es: seq<Action>)
    ensures ValidRun(EMPTY, es)
    ensures var s := Run(EMPTY, es);
            s.rows == map["req" := NewRow(QUESTION, 0)] && s.queue == [] && s.tasks == multiset{Announce("req")}
  {
    es := Then([], Create("req", QUESTION, 0));
  }

  lemma IsAnnounced() returns (es: seq<Action>)
    ensures ValidRun(EMPTY, es)
    ensures var s := Run(EMPTY, es);
            s.rows == map["req" := NewRow(QUESTION, 0)] && s.queue == [] && s.tasks == multiset{Enqueue("req")}
  {
    es := IsStored();
    es := Then(es, SetRouting("req"));
  }

  /** The question is in the queue. */
  lemma IsQueued() returns (es: seq<Action>)
    ensures ValidRun(EMPTY, es)
    ensures var s := Run(EMPTY, es);
            s.rows == map["req" := NewRow(QUESTION, 0)] && s.queue == ["req"] && s.tasks == multiset{}
  {
    es := IsAnnounced();
    es := Then(es, PushQueue("req"));
  }

  /** The fallback has taken a request and has yet to remove its queue entry. */
  lemma FallbackHasTaken() returns (es: seq<Action>)
    ensures ValidRun(EMPTY, es)
    ensures var s := Run(EMPTY, es);
            && "req" in s.rows && s.rows["req"].status == Assigned && s.rows["req"].updatedAt == 1
            && s.rows["req"].fragments == [] && s.rows["req"].ask.preferred == ""
            && s.queue == ["req"] && s.tasks == multiset{Unqueue("req")}
  {
    es := IsQueued();
    es := Then(es, TakeFallback("req", 1));
  }

  /** A sweeper has found the assignment expired. */
  lemma SweeperHasFound() returns (es: seq<Action>)
    ensures ValidRun(EMPTY, es)
    ensures var s := Run(EMPTY, es);
            && "req" in s.rows && s.rows["req"].status == Assigned && s.rows["req"].updatedAt == 1
            && s.rows["req"].ask.preferred == "" && s.tasks == multiset{Unqueue("req"), ExpireAssigned("req", 1)}
  {
    es := FallbackHasTaken();
    es := Then(es, SelectAssigned("req", 1));
  }

  /** A sweeper has put the request back meanwhile. */
  lemma SweeperHasRequeued() returns (es: seq<Action>)
    ensures ValidRun(EMPTY, es)
    ensures var s := Run(EMPTY, es);
            "req" in s.rows && s.rows["req"].status == Queued && s.tasks == multiset{Unqueue("req"), Enqueue("req")}
  {
    es := SweeperHasFound();
    es := Then(es, ExpireAssignment("req", 1, 2));
  }

  /** A run that loses a request: the fallback takes it, a sweeper finds the assignment expired and puts it
      back before the fallback call gets to remove the old queue entry. */
  lemma LateRemovalLosesRequest() returns (es: seq<Action>)
    ensures ValidRun(EMPTY, es) && Lost(Run(EMPTY, es), "req")
  {
    es := SweeperHasRequeued();
    es := Then(es, PushQueue("req"));
    var s := Run(EMPTY, es);
    assert s.tasks == multiset{Unqueue("req")};
    assert Strands(s, "req");
    RemovalStrandsIff(s, "req");
    es := Then(es, RemoveQueued("req"));
  }

  lemma Then(es: seq<Action>, e: Action) returns (longer: seq<Action>)
    requires ValidRun(EMPTY, es) && Enabled(Run(EMPTY, es), e)
    ensures longer == es + [e] && ValidRun(EMPTY, longer) && Run(EMPTY, longer) == Next(Run(EMPTY, es), e)
  {
    Extend(EMPTY, es, e);
    longer := es + [e];
  }

  // ---------------------------------------------------------------- the output limit

  /** A live answer is shorter than its limit, none is longer, and the reason is `Length` exactly at the limit. */
  ghost predicate LimitOk(r: Row) {
    var n := AnswerLength(r.fragments);
    && 1 <= r.ask.limit <= OUTPUT_LIMIT && n <= r.ask.limit
    && (!IsTerminal(r.status) ==> n < r.ask.limit)
    && (r.finish == Length <==> n == r.ask.limit)
  }

  /** What may happen to a row without a new fragment. */
  ghost predicate SameAnswer(r: Row, r': Row) {
    && r'.ask == r.ask && r'.fragments == r.fragments
    && (IsTerminal(r.status) ==> IsTerminal(r'.status) && r'.finish == r.finish)
    && (!IsTerminal(r.status) ==> r'.finish == r.finish || r'.finish == Stop || r'.finish == Partial)
  }

  lemma SameAnswerKeepsLimit(r: Row, r': Row)
    requires LimitOk(r) && SameAnswer(r, r')
    ensures LimitOk(r')
  {
  }

  lemma LengthAppend(fragments: seq<FragmentRow>, f: FragmentRow)
    ensures AnswerLength(fragments + [f]) == AnswerLength(fragments) + |f.text|
  {
    assert (fragments + [f])[..|fragments|] == fragments;
  }

  lemma SubmitKeepsLimit(s: State, q: Id, a: Id, n: int, text: string, now: int)
    requires q in s.rows && LimitOk(s.rows[q]) && !IsTerminal(s.rows[q].status)
    requires AnswerLength(s.rows[q].fragments) + |text| <= s.rows[q].ask.limit
    ensures q in SubmitTx(s, q, a, n, text, now).rows && LimitOk(SubmitTx(s, q, a, n, text, now).rows[q])
  {
    SubmittedRow(s, q, a, n, text, now);
    AppendKeepsLimit(s.rows[q], a, n, text, now);
  }

  lemma SubmittedRow(s: State, q: Id, a: Id, n: int, text: string, now: int)
    requires q in s.rows && !IsTerminal(s.rows[q].status)
    ensures var r := AppendRow(s.rows[q], a, n, text, now);
            var full := AnswerLength(s.rows[q].fragments) + |text| >= s.rows[q].ask.limit;
            SubmitTx(s, q, a, n, text, now).rows == s.rows[q := if full then CompleteRow(r, Length, now) else r]
  {
    var t := SetRow(ChargeTx(s, q), q, AppendRow(s.rows[q], a, n, text, now));
    assert CompleteTx(t, q, s.rows[q].responder, Length, now).rows == t.rows[q := CompleteRow(t.rows[q], Length, now)];
  }

  lemma AppendKeepsLimit(r: Row, a: Id, n: int, text: string, now: int)
    requires LimitOk(r) && !IsTerminal(r.status) && AnswerLength(r.fragments) + |text| <= r.ask.limit
    ensures var r' := AppendRow(r, a, n, text, now);
            LimitOk(if AnswerLength(r.fragments) + |text| >= r.ask.limit then CompleteRow(r', Length, now) else r')
  {
    LengthAppend(r.fragments, FragmentRow(a, n, NextOrdinal(r.fragments), text));
  }

  lemma EndSame(s: State, q: Id, responder: Responder, reason: Reason, now: int)
    requires q in s.rows && (reason == Stop || reason == Partial)
    ensures var s' := CompleteTx(s, q, responder, reason, now); q in s'.rows && SameAnswer(s.rows[q], s'.rows[q])
  {
  }

  lemma GiveUpSame(s: State, q: Id, now: int)
    requires q in s.rows && !IsTerminal(s.rows[q].status)
    ensures var s' := GiveUpTx(s, q, now); q in s'.rows && SameAnswer(s.rows[q], s'.rows[q])
  {
  }

  /** A step on `q` other than its creation and a submission. */
  lemma OtherStepsSame(s: State, e: Action)
    requires Enabled(s, e) && !e.AddSession? && !e.Create? && !e.Submit? && e.q in s.rows
    ensures e.q in Next(s, e).rows && SameAnswer(s.rows[e.q], Next(s, e).rows[e.q])
  {
    if e.Finish? || e.Skip? || e.TakeFallback? || e.Cancel? || e.TryPair? || e.React? {
      CallSame(s, e);
    } else if e.ExpireAssignment? || e.ExpireStream? || e.LeaveRequest? {
      ExpirySame(s, e);
    } else if e.SelectAssigned? || e.SelectStreaming? || e.FindActive? {
      FoundSame(s, e);
    } else {
      RedisSame(s, e);
    }
  }

  lemma CallSame(s: State, e: Action)
    requires e.Finish? || e.Skip? || e.TakeFallback? || e.Cancel? || e.TryPair? || e.React?
    requires Enabled(s, e) && e.q in s.rows
    ensures e.q in Next(s, e).rows && SameAnswer(s.rows[e.q], Next(s, e).rows[e.q])
  {
    if e.Finish? {
      EndSame(s, e.q, s.rows[e.q].responder, Stop, e.now);
    } else if e.TryPair? || e.TakeFallback? {
      TakenSame(s, e);
    }
  }

  lemma TakenSame(s: State, e: Action)
    requires e.TryPair? || e.TakeFallback?
    requires Enabled(s, e) && e.q in s.rows
    ensures e.q in Next(s, e).rows && SameAnswer(s.rows[e.q], Next(s, e).rows[e.q])
  {
  }

  lemma ExpirySame(s: State, e: Action)
    requires e.ExpireAssignment? || e.ExpireStream? || e.LeaveRequest?
    requires Enabled(s, e) && e.q in s.rows
    ensures e.q in Next(s, e).rows && SameAnswer(s.rows[e.q], Next(s, e).rows[e.q])
  {
    if e.ExpireAssignment? {
      ExpireSame(DoneWith(s, ExpireAssigned(e.q, e.cutoff)), e.q, e.cutoff, e.now);
    } else if e.ExpireStream? {
      EndSame(DoneWith(s, ExpireStreaming(e.q, e.seen, e.cutoff)), e.q, e.seen.responder, Partial, e.now);
    } else {
      LeaveSame(s, e.q, e.now);
    }
  }

  lemma ExpireSame(s: State, q: Id, cutoff: int, now: int)
    requires q in s.rows
    ensures var s' := ExpireTx(s, q, cutoff, now); q in s'.rows && SameAnswer(s.rows[q], s'.rows[q])
  {
    if s.rows[q].status == Assigned {
      GiveUpSame(s, q, now);
    }
  }

  lemma LeaveSame(s: State, q: Id, now: int)
    requires Enabled(s, LeaveRequest(q, now))
    ensures var s' := Next(s, LeaveRequest(q, now)); q in s'.rows && SameAnswer(s.rows[q], s'.rows[q])
  {
    var t := DoneWith(s, DropResponder(q));
    if !IsTerminal(s.rows[q].status) {
      GiveUpSame(t, q, now);
      EndSame(t, q, s.rows[q].responder, Partial, now);
    }
  }

  lemma FoundSame(s: State, e: Action)
    requires e.SelectAssigned? || e.SelectStreaming? || e.FindActive?
    requires Enabled(s, e)
    ensures Next(s, e).rows == s.rows
  {
  }

  lemma RedisSame(s: State, e: Action)
    requires QueueStep(e) || e.SetRouting? || e.DeleteRoute? || e.PairFails?
    requires Enabled(s, e)
    ensures Next(s, e).rows == s.rows
  {
  }

  lemma StepKeepsLimit(s: State, e: Action, q: Id)
    requires Enabled(s, e) && (q in s.rows ==> LimitOk(s.rows[q])) && q in Next(s, e).rows
    ensures LimitOk(Next(s, e).rows[q])
  {
    if e.AddSession? || e.q != q {
      OthersLeftAlone(s, e, q);
    } else if e.Submit? {
      SubmitKeepsLimit(s, q, e.session, e.clientSeq, e.text, e.now);
    } else if !e.Create? {
      OldRow(s, e);
      OtherStepsSame(s, e);
      SameAnswerKeepsLimit(s.rows[q], Next(s, e).rows[q]);
    }
  }

  lemma OldRow(s: State, e: Action)
    requires Enabled(s, e) && !e.AddSession? && !e.Create? && e.q in Next(s, e).rows
    ensures e.q in s.rows
  {
  }

  /** In every interleaving: every live answer is shorter than its limit, none is longer, and an answer ends for
      `Length` exactly when it is as long as its limit. */
  lemma {:induction false} ExactOutputLimit(es: seq<Action>, q: Id)
    requires ValidRun(EMPTY, es) && q in Run(EMPTY, es).rows
    ensures LimitOk(Run(EMPTY, es).rows[q])
    decreases |es|
  {
    if es != [] {
      var n := |es| - 1;
      var s := Run(EMPTY, es[..n]);
      if q in s.rows {
        ExactOutputLimit(es[..n], q);
      }
      StepKeepsLimit(s, es[n], q);
    }
  }
}
