/** What holds in every interleaving of the distributed protocol. */
module ProtocolInvariant {
  import opened Sequences
  import opened Domain
  import opened Protocol

  // ---------------------------------------------------------------- one row

  /** Queued, assigned and abandoned requests have no fragments, the others do; all fragments come from
      the one responder, with ordinals 1, 2, 3, ... and each client sequence once. */
  ghost predicate RowOk(r: Row) {
    && (r.responder.Nobody? <==> r.status == Queued || r.status == Abandoned)
    && (r.fragments == [] <==> r.status == Queued || r.status == Assigned || r.status == Abandoned)
    && (r.charged <==> r.fragments != [])
    && (r.completedAt.Some? <==> r.status == Completed || r.status == TimeoutCompleted)
    && (r.ask.preferred != "" && r.responder.Responder? ==> r.responder.session == r.ask.preferred)
    && (forall i :: 0 <= i < |r.fragments| ==>
          r.fragments[i].ordinal == i + 1 && r.responder.Responder? && r.fragments[i].session == r.responder.session)
    && (forall i, j :: 0 <= i < j < |r.fragments| ==> r.fragments[i].clientSeq != r.fragments[j].clientSeq)
  }

  /** How a row may change. */
  ghost predicate RowEvolves(a: Row, b: Row) {
    && b.ask == a.ask
    && a.fragments <= b.fragments
    && (IsTerminal(a.status) ==>
          b.status == a.status && b.fragments == a.fragments && b.responder == a.responder && b.finish == a.finish && b.completedAt == a.completedAt)
    && (a.fragments != [] ==> b.responder == a.responder && b.status != Queued && b.status != Assigned && b.status != Abandoned)
  }

  lemma RowEvolvesTransitive(a: Row, b: Row, c: Row)
    requires RowEvolves(a, b) && RowEvolves(b, c)
    ensures RowEvolves(a, c)
  {
  }

  lemma {:induction false} MaxIsCount(fragments: seq<FragmentRow>)
    requires forall i :: 0 <= i < |fragments| ==> fragments[i].ordinal == i + 1
    ensures MaxOrdinal(fragments) == |fragments|
  {
    if fragments != [] {
      MaxIsCount(fragments[..|fragments| - 1]);
    }
  }

  lemma AppendRowOk(r: Row, session: Id, clientSeq: int, text: string, now: int)
    requires RowOk(r) && !IsTerminal(r.status) && r.responder.Responder? && r.responder.session == session
    requires !HasSeq(r.fragments, session, clientSeq)
    ensures var r' := AppendRow(r, session, clientSeq, text, now); RowOk(r') && RowEvolves(r, r')
  {
    MaxIsCount(r.fragments);
  }

  // ---------------------------------------------------------------- ledger

  function Count(ledger: seq<Entry>, q: Id, kind: EntryKind): nat {
    if ledger == [] then 0
    else
      var e := ledger[|ledger| - 1];
      Count(ledger[..|ledger| - 1], q, kind) + (if e.request == q && e.kind == kind then 1 else 0)
  }

  lemma CountAppend(ledger: seq<Entry>, e: Entry, q: Id, kind: EntryKind)
    ensures Count(ledger + [e], q, kind) == Count(ledger, q, kind) + (if e.request == q && e.kind == kind then 1 else 0)
  {
    assert (ledger + [e])[..|ledger|] == ledger;
  }

  predicate Charged(rows: map<Id, Row>, q: Id) {
    q in rows && rows[q].charged && !rows[q].ask.guest
  }

  predicate Rewarded(rows: map<Id, Row>, q: Id) {
    q in rows && rows[q].completedAt.Some? && RowPaid(rows[q].responder)
  }

  /** One charge for every charged question of an account, one reward for every completed answer of an
      account, none otherwise, and each to the right user. */
  ghost predicate LedgerOk(rows: map<Id, Row>, ledger: seq<Entry>) {
    && (forall q :: Count(ledger, q, QuestionCharge) == if Charged(rows, q) then 1 else 0)
    && (forall q :: Count(ledger, q, AnswerReward) == if Rewarded(rows, q) then 1 else 0)
    && (forall e :: e in ledger && e.kind == QuestionCharge ==>
          e.request in rows && e.user == rows[e.request].ask.requester && e.delta == -QUESTION_COST)
    && (forall e :: e in ledger && e.kind == AnswerReward ==>
          Rewarded(rows, e.request) && e.user == rows[e.request].responder.user && e.delta == BASE_ANSWER_REWARD)
  }

  // ---------------------------------------------------------------- tasks and routing

  ghost predicate TaskOk(s: State, t: Task) {
    && t.q in s.rows
    && (t.Pair? ==> IsTerminal(s.rows[t.q].status) || s.rows[t.q].ask.preferred == "" || s.rows[t.q].ask.preferred == t.session)
    && (t.ClearRoute? ==> IsTerminal(s.rows[t.q].status))
    && (t.ExpireStreaming? ==> s.rows[t.q].fragments != [] && s.rows[t.q].responder == t.seen.responder)
  }

  ghost predicate TasksOk(s: State) {
    forall t :: t in s.tasks ==> TaskOk(s, t)
  }

  /** Some call is on its way to match `q`. */
  ghost predicate UnderWay(s: State, q: Id) {
    q in s.queue || Enqueue(q) in s.tasks || exists a :: Pair(q, a) in s.tasks
  }

  /** Some call knows `q` and may put it to a responder or back into the queue. */
  ghost predicate Reached(s: State, q: Id) {
    UnderWay(s, q) || DropResponder(q) in s.tasks
  }

  /** The routing keys say what the row says; a live request has its keys, or is not yet announced and then
      nobody can have got at it. */
  ghost predicate RoutingOk(s: State) {
    && (forall q :: q in s.routing ==> q in s.rows && s.routing[q] == RouteFor(s.rows[q].ask))
    && (forall q :: q in s.rows && !IsTerminal(s.rows[q].status) && q !in s.routing ==>
          s.tasks[Announce(q)] == 1 && s.rows[q].status == Queued && !Reached(s, q))
    && (forall q :: q in s.queue ==> q in s.rows)
    && (forall q :: s.tasks[Announce(q)] <= 1)
  }

  ghost predicate Inv(s: State) {
    && (forall q :: q in s.rows ==> RowOk(s.rows[q]))
    && LedgerOk(s.rows, s.ledger)
    && TasksOk(s)
    && RoutingOk(s)
    && (forall id :: id in s.sessions ==> id != "" && (s.sessions[id].guest <==> s.sessions[id].user == ""))
  }

  ghost predicate Advances(s: State, s': State) {
    forall q :: q in s.rows ==> q in s'.rows && RowEvolves(s.rows[q], s'.rows[q])
  }

  lemma AdvancesTransitive(s: State, t: State, u: State)
    requires Advances(s, t) && Advances(t, u)
    ensures Advances(s, u)
  {
    forall q | q in s.rows ensures q in u.rows && RowEvolves(s.rows[q], u.rows[q]) {
      RowEvolvesTransitive(s.rows[q], t.rows[q], u.rows[q]);
    }
  }

  // ---------------------------------------------------------------- no lost request

  /** Postgres says queued, but nothing in Redis stands for the request: no queue entry, no pairing call in flight, and
      none owed.  It waits until a fallback or a call that still knows it takes it up. */
  ghost predicate Lost(s: State, q: Id) {
    q in s.rows && s.rows[q].status == Queued && !UnderWay(s, q) && Announce(q) !in s.tasks
  }
}
