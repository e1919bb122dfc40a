/** Every step of the distributed protocol keeps the invariant; no request is lost except in one way. */
module ProtocolProofs {
  import opened Sequences
  import opened Domain
  import opened Protocol
  import opened ProtocolInvariant

  ghost predicate Sound(s: State, s': State) {
    Inv(s') && Advances(s, s')
  }

  lemma SoundTransitive(s: State, t: State, u: State)
    requires Sound(s, t) && Sound(t, u)
    ensures Sound(s, u)
  {
    AdvancesTransitive(s, t, u);
  }

  lemma SameRowsAdvance(s: State, s': State)
    requires s'.rows == s.rows && forall q :: q in s.rows ==> RowOk(s.rows[q])
    ensures Advances(s, s')
  {
    forall q | q in s.rows ensures RowEvolves(s.rows[q], s'.rows[q]) {
      assert RowOk(s.rows[q]);
    }
  }

  /** The routing of `q` is in force, or no longer matters. */
  ghost predicate Announced(s: State, q: Id) {
    q in s.rows && (IsTerminal(s.rows[q].status) || q in s.routing)
  }

  lemma AnnouncedIfReached(s: State, q: Id)
    requires RoutingOk(s) && q in s.rows && (s.rows[q].status != Queued || Reached(s, q))
    ensures Announced(s, q)
  {
  }

  // ---------------------------------------------------------------- tasks and queue

  /** Fewer ways under way, and the same announcements, keep the routing in order. */
  lemma RoutingShrinks(s: State, s': State)
    requires RoutingOk(s) && s'.rows == s.rows && s'.routing == s.routing
    requires forall q :: s'.tasks[Announce(q)] == s.tasks[Announce(q)]
    requires forall q :: q in s'.queue ==> q in s'.rows
    requires forall q :: Reached(s', q) ==> Reached(s, q) || Announced(s, q)
    ensures RoutingOk(s')
  {
  }

  lemma SameRowsSound(s: State, s': State)
    requires Inv(s) && s' == s.(queue := s'.queue, tasks := s'.tasks, routing := s'.routing)
    requires TasksOk(s') && RoutingOk(s')
    ensures Sound(s, s')
  {
    SameRowsAdvance(s, s');
  }

  lemma DoneWithSound(s: State, t: Task)
    requires Inv(s) && !t.Announce?
    ensures Sound(s, DoneWith(s, t))
  {
    var s' := DoneWith(s, t);
    DoneWithTasks(s, t);
    RoutingShrinks(s, s');
    SameRowsSound(s, s');
  }

  lemma DoneWithTasks(s: State, t: Task)
    requires TasksOk(s) && !t.Announce?
    ensures TasksOk(DoneWith(s, t))
    ensures forall q :: DoneWith(s, t).tasks[Announce(q)] == s.tasks[Announce(q)]
    ensures forall q :: Reached(DoneWith(s, t), q) ==> Reached(s, q)
  {
    var s' := DoneWith(s, t);
    forall u | u in s'.tasks ensures TaskOk(s', u) {
      assert TaskOk(s, u);
    }
  }

  lemma OweTasks(s: State, t: Task)
    requires TasksOk(s) && !t.Announce? && TaskOk(s, t)
    ensures TasksOk(Owe(s, t))
    ensures forall q :: Owe(s, t).tasks[Announce(q)] == s.tasks[Announce(q)]
    ensures forall q :: Reached(Owe(s, t), q) ==> Reached(s, q) || ((t.Enqueue? || t.Pair? || t.DropResponder?) && q == t.q)
  {
    var s' := Owe(s, t);
    forall u | u in s'.tasks ensures TaskOk(s', u) {
      assert u == t || u in s.tasks;
      assert TaskOk(s, u);
    }
  }

  lemma OweSound(s: State, t: Task)
    requires Inv(s) && !t.Announce? && TaskOk(s, t) && (t.Enqueue? || t.Pair? || t.DropResponder? ==> Announced(s, t.q))
    ensures Sound(s, Owe(s, t))
  {
    var s' := Owe(s, t);
    OweTasks(s, t);
    RoutingShrinks(s, s');
    SameRowsSound(s, s');
  }

  lemma QueueSound(s: State, queue: seq<Id>)
    requires Inv(s)
    requires forall q :: q in queue ==> q in s.queue || Announced(s, q)
    ensures Sound(s, s.(queue := queue))
  {
    var s' := s.(queue := queue);
    assert TasksOk(s') by {
      forall u | u in s'.tasks ensures TaskOk(s', u) {
        assert TaskOk(s, u);
      }
    }
    RoutingShrinks(s, s');
    SameRowsSound(s, s');
  }

  // ---------------------------------------------------------------- rows

  lemma TasksKept(s: State, s': State)
    requires TasksOk(s) && Advances(s, s') && s'.tasks == s.tasks
    ensures TasksOk(s')
  {
    forall t | t in s'.tasks ensures TaskOk(s', t) {
      assert TaskOk(s, t);
      assert RowEvolves(s.rows[t.q], s'.rows[t.q]);
    }
  }

  /** Changing one row, with the entries that go with it. */
  lemma RowSound(s: State, q: Id, r: Row, ledger: seq<Entry>)
    requires Inv(s) && q in s.rows && RowOk(r) && RowEvolves(s.rows[q], r)
    requires LedgerOk(s.rows[q := r], ledger)
    requires r.status == Queued || IsTerminal(r.status) || Announced(s, q)
    ensures Sound(s, s.(rows := s.rows[q := r], ledger := ledger))
  {
    var s' := s.(rows := s.rows[q := r], ledger := ledger);
    OthersAdvance(s, s', q);
    TasksKept(s, s');
    RoutingKept(s, s', q, r);
  }

  lemma OthersAdvance(s: State, s': State, q: Id)
    requires forall p :: p in s.rows ==> RowOk(s.rows[p])
    requires q in s.rows && q in s'.rows && s'.rows == s.rows[q := s'.rows[q]] && RowEvolves(s.rows[q], s'.rows[q])
    ensures Advances(s, s')
  {
    forall p | p in s.rows ensures p in s'.rows && RowEvolves(s.rows[p], s'.rows[p]) {
      assert RowOk(s.rows[p]);
    }
  }

  lemma RoutingKept(s: State, s': State, q: Id, r: Row)
    requires RoutingOk(s) && q in s.rows && r.ask == s.rows[q].ask
    requires s' == s.(rows := s.rows[q := r], ledger := s'.ledger)
    requires r.status == Queued || IsTerminal(r.status) || Announced(s, q)
    requires IsTerminal(s.rows[q].status) ==> IsTerminal(r.status)
    ensures RoutingOk(s')
  {
    assert forall p :: Reached(s', p) <==> Reached(s, p);
  }

  /** A change of a row that neither charges nor completes needs no entry. */
  lemma QuietLedger(s: State, q: Id, r: Row)
    requires LedgerOk(s.rows, s.ledger) && q in s.rows
    requires r.ask == s.rows[q].ask && r.charged == s.rows[q].charged
    requires r.completedAt.Some? == s.rows[q].completedAt.Some?
    requires r.completedAt.Some? ==> r.responder == s.rows[q].responder
    ensures LedgerOk(s.rows[q := r], s.ledger)
  {
    var rows := s.rows[q := r];
    forall p ensures Charged(rows, p) == Charged(s.rows, p) && Rewarded(rows, p) == Rewarded(s.rows, p) {
    }
  }

  lemma QuietRowSound(s: State, q: Id, r: Row)
    requires Inv(s) && q in s.rows && RowOk(r) && RowEvolves(s.rows[q], r)
    requires r.charged == s.rows[q].charged && r.completedAt.Some? == s.rows[q].completedAt.Some?
    requires r.completedAt.Some? ==> r.responder == s.rows[q].responder
    requires r.status == Queued || IsTerminal(r.status) || Announced(s, q)
    ensures Sound(s, SetRow(s, q, r))
  {
    QuietLedger(s, q, r);
    RowSound(s, q, r, s.ledger);
  }

  // ---------------------------------------------------------------- transactions

  lemma RequeueTxSound(s: State, q: Id, now: int)
    requires Inv(s) && q in s.rows && !IsTerminal(s.rows[q].status) && s.rows[q].fragments == [] && Announced(s, q)
    ensures Sound(s, RequeueTx(s, q, now))
  {
    var t := SetRow(s, q, RequeueRow(s.rows[q], now));
    QuietRowSound(s, q, RequeueRow(s.rows[q], now));
    OweSound(t, Enqueue(q));
    SoundTransitive(s, t, RequeueTx(s, q, now));
  }

  lemma AbandonTxSound(s: State, q: Id, now: int)
    requires Inv(s) && q in s.rows && !IsTerminal(s.rows[q].status) && s.rows[q].fragments == []
    ensures Sound(s, AbandonTx(s, q, now))
  {
    var t := SetRow(s, q, AbandonRow(s.rows[q], now));
    QuietRowSound(s, q, AbandonRow(s.rows[q], now));
    OweSound(t, ClearRoute(q));
    SoundTransitive(s, t, AbandonTx(s, q, now));
  }

  lemma GiveUpTxSound(s: State, q: Id, now: int)
    requires Inv(s) && q in s.rows && !IsTerminal(s.rows[q].status) && s.rows[q].fragments == [] && Announced(s, q)
    ensures Sound(s, GiveUpTx(s, q, now))
  {
    if s.rows[q].ask.preferred != "" {
      AbandonTxSound(s, q, now);
    } else {
      RequeueTxSound(s, q, now);
    }
  }

  /** The reward of a completed answer, booked once and to the responder of the row. */
  lemma RewardLedger(rows: map<Id, Row>, ledger: seq<Entry>, q: Id, r: Row)
    requires LedgerOk(rows, ledger) && q in rows && rows[q].completedAt.None?
    requires r.ask == rows[q].ask && r.charged == rows[q].charged && r.completedAt.Some?
    ensures LedgerOk(rows[q := r],
                     if RowPaid(r.responder) then ledger + [Entry(r.responder.user, q, AnswerReward, BASE_ANSWER_REWARD)] else ledger)
  {
    var rows' := rows[q := r];
    forall p ensures Charged(rows', p) == Charged(rows, p) && Rewarded(rows', p) == (if p == q then RowPaid(r.responder) else Rewarded(rows, p)) {
    }
    if RowPaid(r.responder) {
      var e := Entry(r.responder.user, q, AnswerReward, BASE_ANSWER_REWARD);
      forall p, k ensures Count(ledger + [e], p, k) == Count(ledger, p, k) + (if p == q && k == AnswerReward then 1 else 0) {
        CountAppend(ledger, e, p, k);
      }
    }
  }

  lemma CompleteRowOk(r: Row, reason: Reason, now: int)
    requires RowOk(r) && r.status == Streaming
    ensures RowOk(CompleteRow(r, reason, now)) && RowEvolves(r, CompleteRow(r, reason, now))
  {
  }

  lemma CompleteTxSound(s: State, q: Id, responder: Responder, reason: Reason, now: int)
    requires Inv(s) && q in s.rows && s.rows[q].status == Streaming && responder == s.rows[q].responder
    ensures Sound(s, CompleteTx(s, q, responder, reason, now))
  {
    var r := CompleteRow(s.rows[q], reason, now);
    var ledger := if RowPaid(responder) then s.ledger + [Entry(responder.user, q, AnswerReward, BASE_ANSWER_REWARD)] else s.ledger;
    var t := s.(rows := s.rows[q := r], ledger := ledger);
    assert RowOk(s.rows[q]);
    CompleteRowOk(s.rows[q], reason, now);
    RewardLedger(s.rows, s.ledger, q, r);
    RowSound(s, q, r, ledger);
    OweSound(t, ClearRoute(q));
    SoundTransitive(s, t, CompleteTx(s, q, responder, reason, now));
  }

  lemma ChargeLedger(rows: map<Id, Row>, ledger: seq<Entry>, q: Id, r: Row)
    requires LedgerOk(rows, ledger) && q in rows && rows[q].completedAt.None? && r.completedAt.None?
    requires r.ask == rows[q].ask && r.charged
    ensures LedgerOk(rows[q := r],
                     if !rows[q].charged && !r.ask.guest then ledger + [Entry(r.ask.requester, q, QuestionCharge, -QUESTION_COST)] else ledger)
  {
    var rows', e := rows[q := r], Entry(r.ask.requester, q, QuestionCharge, -QUESTION_COST);
    forall p ensures Charged(rows', p) == (if p == q then !r.ask.guest else Charged(rows, p)) && Rewarded(rows', p) == Rewarded(rows, p) {
    }
    if !rows[q].charged && !r.ask.guest {
      forall p, k ensures Count(ledger + [e], p, k) == Count(ledger, p, k) + (if p == q && k == QuestionCharge then 1 else 0) {
        CountAppend(ledger, e, p, k);
      }
    }
  }

  lemma AppendTxSound(s: State, q: Id, a: Id, n: int, text: string, now: int)
    requires Inv(s) && IsActive(s, q, a) && !HasSeq(s.rows[q].fragments, a, n)
    ensures Sound(s, SetRow(ChargeTx(s, q), q, AppendRow(s.rows[q], a, n, text, now)))
  {
    var r := AppendRow(s.rows[q], a, n, text, now);
    assert RowOk(s.rows[q]);
    AppendRowOk(s.rows[q], a, n, text, now);
    ChargeLedger(s.rows, s.ledger, q, r);
    AnnouncedIfReached(s, q);
    RowSound(s, q, r, ChargeTx(s, q).ledger);
  }

  lemma SubmitTxSound(s: State, q: Id, a: Id, n: int, text: string, now: int)
    requires Inv(s) && IsActive(s, q, a) && !HasSeq(s.rows[q].fragments, a, n)
    ensures Sound(s, SubmitTx(s, q, a, n, text, now))
  {
    var t := SetRow(ChargeTx(s, q), q, AppendRow(s.rows[q], a, n, text, now));
    AppendTxSound(s, q, a, n, text, now);
    if AnswerLength(s.rows[q].fragments) + |text| >= s.rows[q].ask.limit {
      CompleteTxSound(t, q, s.rows[q].responder, Length, now);
      SoundTransitive(s, t, CompleteTx(t, q, s.rows[q].responder, Length, now));
    }
  }

  lemma AdjustLedger(rows: map<Id, Row>, ledger: seq<Entry>, e: Entry)
    requires LedgerOk(rows, ledger) && e.kind == ReactionAdjustment
    ensures LedgerOk(rows, ledger + [e])
  {
    forall p, k ensures k != ReactionAdjustment ==> Count(ledger + [e], p, k) == Count(ledger, p, k) {
      CountAppend(ledger, e, p, k);
    }
  }

  lemma ReactTxSound(s: State, q: Id, reaction: Reaction)
    requires Inv(s) && q in s.rows
    ensures Sound(s, ReactTx(s, q, reaction))
  {
    var r := s.rows[q].(reaction := reaction);
    assert RowOk(s.rows[q]);
    QuietLedger(s, q, r);
    var e := ReactTxIs(s, q, reaction);
    AdjustLedger(s.rows[q := r], s.ledger, e);
    ReactionRow(s, q, r, ReactTx(s, q, reaction).ledger);
  }

  lemma ReactTxIs(s: State, q: Id, reaction: Reaction) returns (e: Entry)
    requires q in s.rows
    ensures var t := ReactTx(s, q, reaction);
            && t == s.(rows := s.rows[q := s.rows[q].(reaction := reaction)], ledger := t.ledger)
            && e.kind == ReactionAdjustment && (t.ledger == s.ledger || t.ledger == s.ledger + [e])
  {
    var r := s.rows[q];
    e := Entry(if r.responder.Responder? then r.responder.user else "", q, ReactionAdjustment, RewardFor(reaction) - RewardFor(r.reaction));
  }

  lemma ReactionRow(s: State, q: Id, r: Row, ledger: seq<Entry>)
    requires Inv(s) && q in s.rows && r == s.rows[q].(reaction := r.reaction) && LedgerOk(s.rows[q := r], ledger)
    ensures Sound(s, s.(rows := s.rows[q := r], ledger := ledger))
  {
    assert RowOk(s.rows[q]);
    if r.status != Queued {
      AnnouncedIfReached(s, q);
    }
    RowSound(s, q, r, ledger);
  }

  lemma TryPairTxSound(s: State, q: Id, a: Id, now: int)
    requires Inv(s) && a in s.sessions && (q in s.rows ==> Announced(s, q))
    ensures Sound(s, TryPairTx(s, q, a, now))
  {
    SameRowsAdvance(s, s);
    if q in s.rows && s.rows[q].status == Queued && (s.rows[q].ask.preferred == "" || s.rows[q].ask.preferred == a) {
      assert RowOk(s.rows[q]);
      QuietRowSound(s, q, TryPairTx(s, q, a, now).rows[q]);
    }
  }

  // ---------------------------------------------------------------- any step

  lemma SameTasksOk(s: State, s': State)
    requires TasksOk(s) && s'.rows == s.rows && forall x :: x in s'.tasks ==> x in s.tasks
    ensures TasksOk(s')
  {
    forall x | x in s'.tasks ensures TaskOk(s', x) {
      assert TaskOk(s, x);
    }
  }

  /** The state after the routing keys of `q` are set. */
  function WithRoute(s: State, q: Id): State
    requires q in s.rows
  {
    DoneWith(s.(routing := s.routing[q := RouteFor(s.rows[q].ask)]), Announce(q))
  }

  lemma WithRouteSound(s: State, q: Id)
    requires Inv(s) && Announce(q) in s.tasks && q in s.rows
    ensures Sound(s, WithRoute(s, q))
  {
    SameTasksOk(s, WithRoute(s, q));
    AnnouncedRouting(s, q);
    SameRowsSound(s, WithRoute(s, q));
  }

  lemma SetRoutingSound(s: State, q: Id)
    requires Inv(s) && Announce(q) in s.tasks && q in s.rows
    ensures Sound(s, Owe(WithRoute(s, q), Enqueue(q)))
  {
    WithRouteSound(s, q);
    OweSound(WithRoute(s, q), Enqueue(q));
    SoundTransitive(s, WithRoute(s, q), Owe(WithRoute(s, q), Enqueue(q)));
  }

  lemma AnnouncedRouting(s: State, q: Id)
    requires RoutingOk(s) && Announce(q) in s.tasks && q in s.rows
    ensures RoutingOk(WithRoute(s, q))
  {
    var u := WithRoute(s, q);
    assert forall p :: Reached(u, p) ==> Reached(s, p);
    assert forall p :: p != q ==> u.tasks[Announce(p)] == s.tasks[Announce(p)];
  }

  lemma CreateLedger(rows: map<Id, Row>, ledger: seq<Entry>, q: Id, r: Row)
    requires LedgerOk(rows, ledger) && q !in rows && !r.charged && r.completedAt.None?
    ensures LedgerOk(rows[q := r], ledger)
  {
    forall p ensures Charged(rows[q := r], p) == Charged(rows, p) && Rewarded(rows[q := r], p) == Rewarded(rows, p) {
    }
  }

  lemma CreateAdvances(s: State, s': State, q: Id)
    requires q !in s.rows && q in s'.rows && s'.rows == s.rows[q := s'.rows[q]]
    requires forall p :: p in s.rows ==> RowOk(s.rows[p])
    ensures Advances(s, s')
  {
    forall p | p in s.rows ensures RowEvolves(s.rows[p], s'.rows[p]) {
      assert RowOk(s.rows[p]);
    }
  }

  lemma CreateTasks(s: State, s': State, q: Id)
    requires TasksOk(s) && q !in s.rows && q in s'.rows && s'.rows == s.rows[q := s'.rows[q]]
    requires s'.tasks == s.tasks + multiset{Announce(q)}
    ensures TasksOk(s')
  {
    forall x | x in s'.tasks ensures TaskOk(s', x) {
      assert x == Announce(q) || TaskOk(s, x);
    }
  }

  lemma CreateSound(s: State, q: Id, ask: Ask, now: int)
    requires Inv(s) && q !in s.rows
    ensures Sound(s, Owe(SetRow(s, q, NewRow(ask, now)), Announce(q)))
  {
    var s' := Owe(SetRow(s, q, NewRow(ask, now)), Announce(q));
    CreateAdvances(s, s', q);
    CreateTasks(s, s', q);
    CreateLedger(s.rows, s.ledger, q, NewRow(ask, now));
    CreateRouting(s, q, ask, now);
  }

  lemma CreateRouting(s: State, q: Id, ask: Ask, now: int)
    requires RoutingOk(s) && TasksOk(s) && q !in s.rows
    ensures RoutingOk(Owe(SetRow(s, q, NewRow(ask, now)), Announce(q)))
  {
    var s' := Owe(SetRow(s, q, NewRow(ask, now)), Announce(q));
    assert s.tasks[Announce(q)] == 0 by {
      assert Announce(q) in s.tasks ==> TaskOk(s, Announce(q));
    }
    assert !Reached(s, q) by {
      assert Enqueue(q) in s.tasks ==> TaskOk(s, Enqueue(q));
      assert DropResponder(q) in s.tasks ==> TaskOk(s, DropResponder(q));
      assert forall a :: Pair(q, a) in s.tasks ==> TaskOk(s, Pair(q, a));
    }
    assert forall p :: Reached(s', p) <==> Reached(s, p);
  }

  lemma {:induction false} RemoveFirstMembers(queue: seq<Id>, q: Id)
    ensures forall p :: p in RemoveFirst(queue, q) ==> p in queue
    ensures forall p :: p in queue && p != q ==> p in RemoveFirst(queue, q)
  {
    if queue != [] {
      RemoveFirstMembers(queue[1..], q);
    }
  }

  lemma ScriptSound(s: State, q: Id, a: Id, kind: Kind, acceptsAi: bool)
    requires Inv(s) && q in s.queue && RouteSuits(RouteOf(s, q), a, kind, acceptsAi)
    ensures Sound(s, Owe(s.(queue := RemoveFirst(s.queue, q)), Pair(q, a)))
  {
    var t := s.(queue := RemoveFirst(s.queue, q));
    RemoveFirstMembers(s.queue, q);
    AnnouncedIfReached(s, q);
    QueueSound(s, t.queue);
    ChosenTask(s, q, a, kind, acceptsAi);
    OweSound(t, Pair(q, a));
    SoundTransitive(s, t, Owe(t, Pair(q, a)));
  }

  lemma ChosenTask(s: State, q: Id, a: Id, kind: Kind, acceptsAi: bool)
    requires RoutingOk(s) && q in s.queue && RouteSuits(RouteOf(s, q), a, kind, acceptsAi) && Announced(s, q) && RowOk(s.rows[q])
    ensures TaskOk(s.(queue := RemoveFirst(s.queue, q)), Pair(q, a))
  {
  }

  lemma PairDone(s: State, q: Id, a: Id)
    requires Inv(s) && Pair(q, a) in s.tasks
    ensures Sound(s, DoneWith(s, Pair(q, a))) && Announced(s, q)
  {
    assert TaskOk(s, Pair(q, a));
    assert Reached(s, q);
    AnnouncedIfReached(s, q);
    DoneWithSound(s, Pair(q, a));
  }

  lemma PairFailsSound(s: State, q: Id, a: Id)
    requires Inv(s) && Pair(q, a) in s.tasks
    ensures Sound(s, Owe(DoneWith(s, Pair(q, a)), Enqueue(q)))
  {
    PairDone(s, q, a);
    OweSound(DoneWith(s, Pair(q, a)), Enqueue(q));
    SoundTransitive(s, DoneWith(s, Pair(q, a)), Owe(DoneWith(s, Pair(q, a)), Enqueue(q)));
  }

  lemma TryPairSound(s: State, q: Id, a: Id, now: int)
    requires Inv(s) && Pair(q, a) in s.tasks && a in s.sessions
    ensures Sound(s, TryPairTx(DoneWith(s, Pair(q, a)), q, a, now))
  {
    PairDone(s, q, a);
    TryPairTxSound(DoneWith(s, Pair(q, a)), q, a, now);
    SoundTransitive(s, DoneWith(s, Pair(q, a)), TryPairTx(DoneWith(s, Pair(q, a)), q, a, now));
  }

  lemma FallbackSound(s: State, q: Id, now: int)
    requires Inv(s) && Enabled(s, TakeFallback(q, now))
    ensures Sound(s, Next(s, TakeFallback(q, now)))
  {
    var r := AssignRow(s.rows[q], Responder("fallback_" + q, "", true, Fallback), now);
    assert RowOk(s.rows[q]);
    QuietRowSound(s, q, r);
    OweSound(SetRow(s, q, r), Unqueue(q));
    SoundTransitive(s, SetRow(s, q, r), Next(s, TakeFallback(q, now)));
  }

  lemma CancelSound(s: State, q: Id, now: int)
    requires Inv(s) && Enabled(s, Cancel(q, now))
    ensures Sound(s, Next(s, Cancel(q, now)))
  {
    AbandonTxSound(s, q, now);
    OweSound(AbandonTx(s, q, now), Unqueue(q));
    SoundTransitive(s, AbandonTx(s, q, now), Next(s, Cancel(q, now)));
  }

  lemma SkipSound(s: State, q: Id, a: Id, now: int)
    requires Inv(s) && Enabled(s, Skip(q, a, now))
    ensures Sound(s, Next(s, Skip(q, a, now)))
  {
    if s.rows[q].ask.kind == AiPersona {
      AbandonTxSound(s, q, now);
    } else {
      assert RowOk(s.rows[q]);
      AnnouncedIfReached(s, q);
      RequeueTxSound(s, q, now);
    }
  }

  lemma PushSound(s: State, q: Id)
    requires Inv(s) && Enqueue(q) in s.tasks
    ensures Sound(s, DoneWith(s, Enqueue(q)).(queue := s.queue + [q]))
  {
    var t := DoneWith(s, Enqueue(q));
    assert TaskOk(s, Enqueue(q));
    AnnouncedIfReached(s, q);
    DoneWithSound(s, Enqueue(q));
    QueueSound(t, t.queue + [q]);
    SoundTransitive(s, t, t.(queue := t.queue + [q]));
  }

  lemma RemoveQueuedSound(s: State, q: Id)
    requires Inv(s) && Unqueue(q) in s.tasks
    ensures Sound(s, DoneWith(s, Unqueue(q)).(queue := Without(s.queue, q)))
  {
    var t := DoneWith(s, Unqueue(q));
    DoneWithSound(s, Unqueue(q));
    WithoutMembers(s.queue, q);
    QueueSound(t, Without(t.queue, q));
    SoundTransitive(s, t, t.(queue := Without(t.queue, q)));
  }

  lemma ForgetRouteSound(s: State, q: Id)
    requires Inv(s) && q in s.rows && IsTerminal(s.rows[q].status)
    ensures Sound(s, s.(routing := s.routing - {q}))
  {
    var u := s.(routing := s.routing - {q});
    SameTasksOk(s, u);
    ForgetRouting(s, q);
    SameRowsSound(s, u);
  }

  lemma ForgetRouting(s: State, q: Id)
    requires RoutingOk(s) && q in s.rows && IsTerminal(s.rows[q].status)
    ensures RoutingOk(s.(routing := s.routing - {q}))
  {
    assert forall p :: Reached(s.(routing := s.routing - {q}), p) <==> Reached(s, p);
  }

  lemma DeleteRouteSound(s: State, q: Id)
    requires Inv(s) && ClearRoute(q) in s.tasks
    ensures Sound(s, DoneWith(s, ClearRoute(q)).(routing := s.routing - {q}))
  {
    var t := DoneWith(s, ClearRoute(q));
    assert TaskOk(s, ClearRoute(q));
    DoneWithSound(s, ClearRoute(q));
    ForgetRouteSound(t, q);
    SoundTransitive(s, t, t.(routing := t.routing - {q}));
  }

  lemma ExpireTxSound(s: State, q: Id, cutoff: int, now: int)
    requires Inv(s) && q in s.rows
    ensures Sound(s, ExpireTx(s, q, cutoff, now))
  {
    if s.rows[q].status == Assigned && s.rows[q].updatedAt <= cutoff {
      AssignedGiveUpSound(s, q, now);
    } else {
      SameRowsAdvance(s, s);
    }
  }

  lemma ExpireAssignmentSound(s: State, q: Id, cutoff: int, now: int)
    requires Inv(s) && q in s.rows
    ensures Sound(s, ExpireTx(DoneWith(s, ExpireAssigned(q, cutoff)), q, cutoff, now))
  {
    var t := DoneWith(s, ExpireAssigned(q, cutoff));
    DoneWithSound(s, ExpireAssigned(q, cutoff));
    ExpireTxSound(t, q, cutoff, now);
    SoundTransitive(s, t, ExpireTx(t, q, cutoff, now));
  }

  lemma AssignedGiveUpSound(s: State, q: Id, now: int)
    requires Inv(s) && q in s.rows && s.rows[q].status == Assigned
    ensures Sound(s, GiveUpTx(s, q, now))
  {
    assert RowOk(s.rows[q]);
    AnnouncedIfReached(s, q);
    GiveUpTxSound(s, q, now);
  }

  /** The sweeper pays the responder it read earlier; a streaming row has had no other since. */
  lemma ExpireStreamSound(s: State, q: Id, seen: Row, cutoff: int, now: int)
    requires Inv(s) && Enabled(s, ExpireStream(q, seen, cutoff, now))
    ensures Sound(s, Next(s, ExpireStream(q, seen, cutoff, now)))
  {
    var task := ExpireStreaming(q, seen, cutoff);
    StillTheResponder(s, task);
    DoneWithSound(s, task);
    if s.rows[q].status == Streaming && s.rows[q].updatedAt <= cutoff {
      CompleteTxSound(DoneWith(s, task), q, seen.responder, Partial, now);
      SoundTransitive(s, DoneWith(s, task), CompleteTx(DoneWith(s, task), q, seen.responder, Partial, now));
    }
  }

  lemma StillTheResponder(s: State, t: Task)
    requires TasksOk(s) && t in s.tasks && t.ExpireStreaming?
    ensures t.q in s.rows && s.rows[t.q].responder == t.seen.responder
  {
    assert TaskOk(s, t);
  }

  lemma LeaveSound(s: State, q: Id, now: int)
    requires Inv(s) && Enabled(s, LeaveRequest(q, now))
    ensures Sound(s, Next(s, LeaveRequest(q, now)))
  {
    var t := DoneWith(s, DropResponder(q));
    DoneWithSound(s, DropResponder(q));
    AnnouncedIfReached(s, q);
    assert RowOk(s.rows[q]);
    if !IsTerminal(s.rows[q].status) {
      if s.rows[q].fragments == [] {
        GiveUpTxSound(t, q, now);
        SoundTransitive(s, t, GiveUpTx(t, q, now));
      } else {
        CompleteTxSound(t, q, s.rows[q].responder, Partial, now);
        SoundTransitive(s, t, CompleteTx(t, q, s.rows[q].responder, Partial, now));
      }
    }
  }

  lemma AddSessionSound(s: State, id: Id, info: Session)
    requires Inv(s) && id != "" && (info.guest <==> info.user == "")
    ensures Sound(s, s.(sessions := s.sessions[id := info]))
  {
    var s' := s.(sessions := s.sessions[id := info]);
    SameRowsAdvance(s, s');
    SameTasksOk(s, s');
    assert forall q :: Reached(s', q) <==> Reached(s, q);
    RoutingShrinks(s, s');
  }

  lemma FinishSound(s: State, q: Id, a: Id, now: int)
    requires Inv(s) && Enabled(s, Finish(q, a, now))
    ensures Sound(s, Next(s, Finish(q, a, now)))
  {
    assert RowOk(s.rows[q]);
    CompleteTxSound(s, q, s.rows[q].responder, Stop, now);
  }

  /** A call finds the row it will deal with in its next transaction. */
  lemma FoundSound(s: State, e: Action)
    requires e.SelectAssigned? || e.SelectStreaming? || e.FindActive?
    requires Inv(s) && Enabled(s, e)
    ensures Sound(s, Next(s, e))
  {
    match e
    case SelectAssigned(q, cutoff) => FoundTask(s, ExpireAssigned(q, cutoff));
    case SelectStreaming(q, cutoff) => FoundTask(s, ExpireStreaming(q, s.rows[q], cutoff));
    case FindActive(q, a) =>
      assert RowOk(s.rows[q]);
      AnnouncedIfReached(s, q);
      FoundTask(s, DropResponder(q));
  }

  lemma FoundTask(s: State, t: Task)
    requires Inv(s) && t.q in s.rows && (t.ExpireAssigned? || t.ExpireStreaming? || t.DropResponder?)
    requires t.ExpireStreaming? ==> t.seen == s.rows[t.q] && t.seen.fragments != []
    requires t.DropResponder? ==> Announced(s, t.q)
    ensures Sound(s, Owe(s, t))
  {
    OweSound(s, t);
  }

  /** A step that only concerns Redis, or the routing of a pair. */
  lemma CoordinationSound(s: State, e: Action)
    requires e.SetRouting? || e.PushQueue? || e.RunScript? || e.PairFails? || e.TryPair? || e.RemoveQueued? || e.DeleteRoute?
    requires Inv(s) && Enabled(s, e)
    ensures Sound(s, Next(s, e))
  {
    match e
    case SetRouting(q) => SetRoutingSound(s, q);
    case PushQueue(q) => PushSound(s, q);
    case RunScript(q, a, kind, acceptsAi) => ScriptSound(s, q, a, kind, acceptsAi);
    case PairFails(q, a) => PairFailsSound(s, q, a);
    case TryPair(q, a, now) => TryPairSound(s, q, a, now);
    case RemoveQueued(q) => RemoveQueuedSound(s, q);
    case DeleteRoute(q) => DeleteRouteSound(s, q);
  }

  /** A call of a requester or a responder. */
  lemma CallSound(s: State, e: Action)
    requires e.Submit? || e.Finish? || e.Skip? || e.TakeFallback? || e.Cancel? || e.React?
    requires Inv(s) && Enabled(s, e)
    ensures Sound(s, Next(s, e))
  {
    match e
    case Submit(q, a, n, text, now) => SubmitTxSound(s, q, a, n, text, now);
    case Finish(q, a, now) => FinishSound(s, q, a, now);
    case Skip(q, a, now) => SkipSound(s, q, a, now);
    case TakeFallback(q, now) => FallbackSound(s, q, now);
    case Cancel(q, now) => CancelSound(s, q, now);
    case React(q, reaction) => ReactTxSound(s, q, reaction);
  }

  lemma StepSound(s: State, e: Action)
    requires Inv(s) && Enabled(s, e)
    ensures Sound(s, Next(s, e))
  {
    if e.Submit? || e.Finish? || e.Skip? || e.TakeFallback? || e.Cancel? || e.React? {
      CallSound(s, e);
    } else if e.SelectAssigned? || e.SelectStreaming? || e.FindActive? {
      FoundSound(s, e);
    } else if e.AddSession? {
      AddSessionSound(s, e.session, e.info);
    } else if e.Create? {
      CreateSound(s, e.q, e.ask, e.now);
    } else if e.ExpireAssignment? {
      ExpireAssignmentSound(s, e.q, e.cutoff, e.now);
    } else if e.ExpireStream? {
      ExpireStreamSound(s, e.q, e.seen, e.cutoff, e.now);
    } else if e.LeaveRequest? {
      LeaveSound(s, e.q, e.now);
    } else {
      CoordinationSound(s, e);
    }
  }

  lemma {:induction false} RunSound(s: State, es: seq<Action>)
    requires Inv(s) && ValidRun(s, es)
    ensures Sound(s, Run(s, es))
    decreases |es|
  {
    if es == [] {
      SameRowsAdvance(s, s);
    } else {
      var n := |es| - 1;
      RunSound(s, es[..n]);
      StepSound(Run(s, es[..n]), es[n]);
      SoundTransitive(s, Run(s, es[..n]), Run(s, es));
    }
  }

  lemma EmptyInv()
    ensures Inv(EMPTY)
  {
  }
}
