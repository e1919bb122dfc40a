/** The Postgres and Redis backend as a distributed protocol.

    Every SQL transaction or single statement, every Redis command and every run of the assignment
    script is one atomic step.  What a call still has to do after such a step is a task; tasks of any
    number of instances are interleaved arbitrarily. */
module Protocol {
  import opened Sequences
  import opened Domain

  datatype FragmentRow = FragmentRow(session: Id, clientSeq: int, ordinal: int, text: string)

  /** A row of the requests table together with its fragments. */
  datatype Row = Row(ask: Ask, status: Status, responder: Responder, charged: bool, finish: Reason, reaction: Reaction,
                     updatedAt: int, completedAt: Option<int>, fragments: seq<FragmentRow>)

  /** The routing keys of a request in Redis. */
  datatype Route = Route(kind: Kind, allowAi: bool, preferred: Id)

  /** What some in-flight call on some instance is about to do. */
  datatype Task =
    | Announce(q: Id)                                   // created: set the routing keys, then enqueue
    | Enqueue(q: Id)                                    // back in status queued: push to the queue
    | Pair(q: Id, session: Id)                          // popped by the script: try to assign
    | Unqueue(q: Id)                                    // taken or cancelled: remove from the queue
    | ClearRoute(q: Id)                                 // ended: delete the routing keys
    | ExpireAssigned(q: Id, cutoff: int)                // selected by a sweeper
    | ExpireStreaming(q: Id, seen: Row, cutoff: int)    // selected by a sweeper, with the row it read
    | DropResponder(q: Id)                              // found as the active request of a leaving responder

  datatype State = State(sessions: map<Id, Session>, rows: map<Id, Row>, ledger: seq<Entry>,
                         queue: seq<Id>, routing: map<Id, Route>, tasks: multiset<Task>)

  const EMPTY := State(map[], map[], [], [], map[], multiset{})

  datatype Action =
    | AddSession(session: Id, info: Session)
    | Create(q: Id, ask: Ask, now: int)
    | SetRouting(q: Id)
    | PushQueue(q: Id)
    | RunScript(q: Id, session: Id, kind: Kind, acceptsAi: bool)
    | PairFails(q: Id, session: Id)
    | TryPair(q: Id, session: Id, now: int)
    | Submit(q: Id, session: Id, clientSeq: int, text: string, now: int)
    | Finish(q: Id, session: Id, now: int)
    | Skip(q: Id, session: Id, now: int)
    | TakeFallback(q: Id, now: int)
    | RemoveQueued(q: Id)
    | Cancel(q: Id, now: int)
    | DeleteRoute(q: Id)
    | SelectAssigned(q: Id, cutoff: int)
    | ExpireAssignment(q: Id, cutoff: int, now: int)
    | SelectStreaming(q: Id, cutoff: int)
    | ExpireStream(q: Id, seen: Row, cutoff: int, now: int)
    | FindActive(q: Id, session: Id)
    | LeaveRequest(q: Id, now: int)
    | React(q: Id, reaction: Reaction)

  // ---------------------------------------------------------------- row transitions

  function NewRow(ask: Ask, now: int): Row {
    Row(ask, Queued, Nobody, false, NoReason, Neutral, now, None, [])
  }

  function AssignRow(r: Row, responder: Responder, now: int): Row {
    r.(status := Assigned, responder := responder, updatedAt := now)
  }

  function RequeueRow(r: Row, now: int): Row {
    r.(status := Queued, responder := Nobody, updatedAt := now)
  }

  function AbandonRow(r: Row, now: int): Row {
    r.(status := Abandoned, responder := Nobody, updatedAt := now)
  }

  function CompleteRow(r: Row, reason: Reason, now: int): Row {
    r.(status := if reason == Partial then TimeoutCompleted else Completed, finish := reason,
       updatedAt := now, completedAt := Some(now))
  }

  /** One more than the largest stored ordinal. */
  function NextOrdinal(fragments: seq<FragmentRow>): int {
    MaxOrdinal(fragments) + 1
  }

  function MaxOrdinal(fragments: seq<FragmentRow>): int {
    if fragments == [] then 0
    else
      var rest, last := MaxOrdinal(fragments[..|fragments| - 1]), fragments[|fragments| - 1].ordinal;
      if last > rest then last else rest
  }

  function AppendRow(r: Row, session: Id, clientSeq: int, text: string, now: int): Row {
    r.(fragments := r.fragments + [FragmentRow(session, clientSeq, NextOrdinal(r.fragments), text)],
       charged := true, status := Streaming, updatedAt := now)
  }

  function AnswerLength(fragments: seq<FragmentRow>): nat {
    if fragments == [] then 0 else AnswerLength(fragments[..|fragments| - 1]) + |fragments[|fragments| - 1].text|
  }

  predicate HasSeq(fragments: seq<FragmentRow>, session: Id, clientSeq: int) {
    exists i :: 0 <= i < |fragments| && fragments[i].session == session && fragments[i].clientSeq == clientSeq
  }

  predicate RowPaid(responder: Responder) {
    responder.Responder? && !responder.guest && responder.user != ""
  }

  // ---------------------------------------------------------------- steps

  function RouteFor(ask: Ask): Route {
    Route(ask.kind, ask.allowAi, ask.preferred)
  }

  /** The routing keys as the script reads them; missing keys mean a human question open to anyone. */
  function RouteOf(s: State, q: Id): Route {
    if q in s.routing then s.routing[q] else Route(Human, true, "")
  }

  predicate RouteSuits(route: Route, session: Id, kind: Kind, acceptsAi: bool) {
    && (route.preferred != "" ==> route.preferred == session)
    && (kind == AiPersona ==> route.allowAi)
    && (route.kind == AiPersona ==> acceptsAi && kind != AiPersona)
  }

  predicate IsActive(s: State, q: Id, session: Id) {
    && q in s.rows && !IsTerminal(s.rows[q].status)
    && s.rows[q].responder.Responder? && s.rows[q].responder.session == session
  }

  function SetRow(s: State, q: Id, r: Row): State {
    s.(rows := s.rows[q := r])
  }

  function Owe(s: State, t: Task): State {
    s.(tasks := s.tasks + multiset{t})
  }

  function DoneWith(s: State, t: Task): State {
    s.(tasks := s.tasks - multiset{t})
  }

  function Book(s: State, e: Entry): State {
    s.(ledger := s.ledger + [e])
  }

  function RequeueTx(s: State, q: Id, now: int): State
    requires q in s.rows
  {
    Owe(SetRow(s, q, RequeueRow(s.rows[q], now)), Enqueue(q))
  }

  function AbandonTx(s: State, q: Id, now: int): State
    requires q in s.rows
  {
    Owe(SetRow(s, q, AbandonRow(s.rows[q], now)), ClearRoute(q))
  }

  /** Completion inside a transaction: the reward goes to the responder the caller has read. */
  function CompleteTx(s: State, q: Id, responder: Responder, reason: Reason, now: int): State
    requires q in s.rows
  {
    if IsTerminal(s.rows[q].status) then s
    else
      var s' := SetRow(s, q, CompleteRow(s.rows[q], reason, now));
      var s'' := if s.rows[q].fragments != [] && RowPaid(responder)
                 then Book(s', Entry(responder.user, q, AnswerReward, BASE_ANSWER_REWARD)) else s';
      Owe(s'', ClearRoute(q))
  }

  function GiveUpTx(s: State, q: Id, now: int): State
    requires q in s.rows
  {
    if s.rows[q].ask.preferred != "" then AbandonTx(s, q, now) else RequeueTx(s, q, now)
  }

  /** The sweeper's transaction: it locks the row and looks again. */
  function ExpireTx(s: State, q: Id, cutoff: int, now: int): State
    requires q in s.rows
  {
    if s.rows[q].status == Assigned && s.rows[q].updatedAt <= cutoff then GiveUpTx(s, q, now) else s
  }

  predicate SubmissionFits(s: State, e: Action)
    requires e.Submit?
  {
    && IsActive(s, e.q, e.session) && e.clientSeq > 0 && e.text != ""
    && !HasSeq(s.rows[e.q].fragments, e.session, e.clientSeq)
    && AnswerLength(s.rows[e.q].fragments) + |e.text| <= s.rows[e.q].ask.limit
  }

  function ChargeTx(s: State, q: Id): State
    requires q in s.rows
  {
    var r := s.rows[q];
    if !r.charged && !r.ask.guest then Book(s, Entry(r.ask.requester, q, QuestionCharge, -QUESTION_COST)) else s
  }

  function SubmitTx(s: State, q: Id, session: Id, clientSeq: int, text: string, now: int): State
    requires q in s.rows
  {
    var s' := SetRow(ChargeTx(s, q), q, AppendRow(s.rows[q], session, clientSeq, text, now));
    if AnswerLength(s.rows[q].fragments) + |text| >= s.rows[q].ask.limit
    then CompleteTx(s', q, s.rows[q].responder, Length, now) else s'
  }

  function ReactTx(s: State, q: Id, reaction: Reaction): State
    requires q in s.rows
  {
    var r := s.rows[q];
    var delta := RewardFor(reaction) - RewardFor(r.reaction);
    var s' := SetRow(s, q, r.(reaction := reaction));
    if RowPaid(r.responder) && delta != 0 then Book(s', Entry(r.responder.user, q, ReactionAdjustment, delta)) else s'
  }

  /** The first occurrence of `q` taken out, as LREM with count one does. */
  function RemoveFirst(queue: seq<Id>, q: Id): seq<Id> {
    if queue == [] then [] else if queue[0] == q then queue[1..] else [queue[0]] + RemoveFirst(queue[1..], q)
  }

  /** When a step can happen at all: its task is owed, or the call finds what it looks for.  Session ids come from
      `newID("ses")`, and the fallback is scheduled when the creating call has returned. */
  ghost predicate Enabled(s: State, e: Action) {
    match e
    case AddSession(id, info) => id !in s.sessions && "ses_" <= id && (info.guest <==> info.user == "")
    case Create(q, ask, now) =>
      && q !in s.rows && (ask.guest <==> ask.requester == "") && (ask.preferred != "" ==> ask.kind == AiPersona && !ask.allowAi)
      && 1 <= ask.limit <= OUTPUT_LIMIT
    case SetRouting(q) => Announce(q) in s.tasks && q in s.rows
    case PushQueue(q) => Enqueue(q) in s.tasks
    case RunScript(q, a, kind, acceptsAi) => q in s.queue && RouteSuits(RouteOf(s, q), a, kind, acceptsAi)
    case PairFails(q, a) => Pair(q, a) in s.tasks
    case TryPair(q, a, now) => Pair(q, a) in s.tasks && a in s.sessions
    case Submit(q, a, n, text, now) => SubmissionFits(s, e)
    case Finish(q, a, now) => IsActive(s, q, a) && s.rows[q].fragments != []
    case Skip(q, a, now) => IsActive(s, q, a) && s.rows[q].fragments == []
    case TakeFallback(q, now) =>
      && q in s.rows && s.rows[q].ask.preferred == "" && s.rows[q].ask.allowAi && s.rows[q].status == Queued && s.rows[q].fragments == []
      && Announce(q) !in s.tasks
    case RemoveQueued(q) => Unqueue(q) in s.tasks
    case Cancel(q, now) => q in s.rows && !IsTerminal(s.rows[q].status) && s.rows[q].fragments == []
    case DeleteRoute(q) => ClearRoute(q) in s.tasks
    case SelectAssigned(q, cutoff) => q in s.rows && s.rows[q].status == Assigned && s.rows[q].updatedAt <= cutoff && s.rows[q].fragments == []
    case ExpireAssignment(q, cutoff, now) => ExpireAssigned(q, cutoff) in s.tasks && q in s.rows
    case SelectStreaming(q, cutoff) => q in s.rows && s.rows[q].status == Streaming && s.rows[q].updatedAt <= cutoff && s.rows[q].fragments != []
    case ExpireStream(q, seen, cutoff, now) => ExpireStreaming(q, seen, cutoff) in s.tasks && q in s.rows
    case FindActive(q, a) => IsActive(s, q, a)
    case LeaveRequest(q, now) => DropResponder(q) in s.tasks && q in s.rows
    case React(q, reaction) => q in s.rows && IsTerminal(s.rows[q].status) && s.rows[q].completedAt.Some? && reaction != Unknown
  }

  ghost function Next(s: State, e: Action): State
    requires Enabled(s, e)
  {
    match e
    case AddSession(id, info) => s.(sessions := s.sessions[id := info])
    case Create(q, ask, now) => Owe(SetRow(s, q, NewRow(ask, now)), Announce(q))
    case SetRouting(q) => Owe(DoneWith(s, Announce(q)), Enqueue(q)).(routing := s.routing[q := RouteFor(s.rows[q].ask)])
    case PushQueue(q) => DoneWith(s, Enqueue(q)).(queue := s.queue + [q])
    case RunScript(q, a, kind, acceptsAi) => Owe(s.(queue := RemoveFirst(s.queue, q)), Pair(q, a))
    case PairFails(q, a) => Owe(DoneWith(s, Pair(q, a)), Enqueue(q))
    case TryPair(q, a, now) => TryPairTx(DoneWith(s, Pair(q, a)), q, a, now)
    case Submit(q, a, n, text, now) => SubmitTx(s, q, a, n, text, now)
    case Finish(q, a, now) => CompleteTx(s, q, s.rows[q].responder, Stop, now)
    case Skip(q, a, now) => if s.rows[q].ask.kind == AiPersona then AbandonTx(s, q, now) else RequeueTx(s, q, now)
    case TakeFallback(q, now) =>
      Owe(SetRow(s, q, AssignRow(s.rows[q], Responder("fallback_" + q, "", true, Fallback), now)), Unqueue(q))
    case RemoveQueued(q) => DoneWith(s, Unqueue(q)).(queue := Without(s.queue, q))
    case Cancel(q, now) => Owe(AbandonTx(s, q, now), Unqueue(q))
    case DeleteRoute(q) => DoneWith(s, ClearRoute(q)).(routing := s.routing - {q})
    case SelectAssigned(q, cutoff) => Owe(s, ExpireAssigned(q, cutoff))
    case ExpireAssignment(q, cutoff, now) =>
      ExpireTx(DoneWith(s, ExpireAssigned(q, cutoff)), q, cutoff, now)
    case SelectStreaming(q, cutoff) => Owe(s, ExpireStreaming(q, s.rows[q], cutoff))
    case ExpireStream(q, seen, cutoff, now) =>
      var s' := DoneWith(s, ExpireStreaming(q, seen, cutoff));
      if s.rows[q].status == Streaming && s.rows[q].updatedAt <= cutoff then CompleteTx(s', q, seen.responder, Partial, now) else s'
    case FindActive(q, a) => Owe(s, DropResponder(q))
    case LeaveRequest(q, now) =>
      var s' := DoneWith(s, DropResponder(q));
      if IsTerminal(s.rows[q].status) then s'
      else if s.rows[q].fragments == [] then GiveUpTx(s', q, now)
      else CompleteTx(s', q, s.rows[q].responder, Partial, now)
    case React(q, reaction) => ReactTx(s, q, reaction)
  }

  /** The compare-and-set of an assignment: it applies only to a row that is still queued and meant for `a`. */
  function TryPairTx(s: State, q: Id, a: Id, now: int): State
    requires a in s.sessions
  {
    if q in s.rows && s.rows[q].status == Queued && (s.rows[q].ask.preferred == "" || s.rows[q].ask.preferred == a)
    then SetRow(s, q, AssignRow(s.rows[q], Responder(a, s.sessions[a].user, s.sessions[a].guest, KindOrHuman(s.sessions[a].kind)), now))
    else s
  }

  ghost predicate ValidRun(s: State, es: seq<Action>)
    decreases |es|, 0
  {
    es == [] || (ValidRun(s, es[..|es| - 1]) && Enabled(Run(s, es[..|es| - 1]), es[|es| - 1]))
  }

  ghost function Run(s: State, es: seq<Action>): State
    requires ValidRun(s, es)
    decreases |es|, 1
  {
    if es == [] then s else Next(Run(s, es[..|es| - 1]), es[|es| - 1])
  }
}
