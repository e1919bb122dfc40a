/** The in-memory service as a state and one function per operation.

    Every operation of the service runs under one mutex, so an operation is one step of the state.
    Clock readings and fresh identifiers are parameters. */
module ServiceSpec {
  import opened Sequences
  import opened Domain
  import opened Sums
  import Matching

  datatype State = State(
    users: set<Id>, tokens: map<Id, Id>, sessions: map<Id, Session>,
    ledger: seq<Entry>, requests: map<Id, Request>, queue: seq<Id>,
    active: map<Id, Id>, available: seq<Id>, responders: map<Id, seq<Id>>, acceptAi: map<Id, bool>)

  const EMPTY := State({}, map[], map[], [], map[], [], map[], [], map[], map[])

  datatype Balance = Balance(total: int, held: int, available: int)

  const NO_BALANCE := Balance(0, 0, 0)

  // ---------------------------------------------------------------- balances

  function Total(ledger: seq<Entry>, user: Id): int {
    if ledger == [] then 0
    else Total(ledger[..|ledger| - 1], user) + (if ledger[|ledger| - 1].user == user then ledger[|ledger| - 1].delta else 0)
  }

  function HeldBy(r: Request, user: Id): int {
    if r.ask.requester == user && r.frozen > 0 && !IsTerminal(r.status) then r.frozen else 0
  }

  function HeldFor(user: Id): Request -> int {
    r => HeldBy(r, user)
  }

  ghost function Held(requests: map<Id, Request>, user: Id): int {
    Sum(requests, HeldFor(user))
  }

  ghost function BalanceOf(s: State, user: Id): Balance {
    var total, held := Total(s.ledger, user), Held(s.requests, user);
    Balance(total, held, total - held)
  }

  // ---------------------------------------------------------------- sessions

  function AddSession(s: State, token: Id, id: Id, session: Session): State {
    s.(tokens := s.tokens[token := id], sessions := s.sessions[id := session])
  }

  function Register(s: State, user: Id, token: Id, id: Id): State {
    AddSession(s.(users := s.users + {user}, ledger := s.ledger + [Entry(user, "", SignupGrant, SIGNUP_GRANT)]),
               token, id, Session(user, false, Human))
  }

  /** The session behind a token. */
  function SessionOf(s: State, token: Id): Option<Id> {
    if token in s.tokens && s.tokens[token] in s.sessions then Some(s.tokens[token]) else None
  }

  // ---------------------------------------------------------------- matching

  function AcceptsAi(s: State, id: Id): bool {
    id in s.acceptAi ==> s.acceptAi[id]
  }

  /** The three routing rules shared by both matchers. */
  predicate Suits(ask: Ask, responder: Id, kind: Kind, acceptsAi: bool) {
    && (ask.preferred != "" ==> ask.preferred == responder)
    && (kind == AiPersona ==> ask.allowAi)
    && (ask.kind == AiPersona ==> kind != AiPersona && acceptsAi)
  }

  predicate Compatible(s: State, q: Id, a: Id) {
    && q in s.requests && !IsTerminal(s.requests[q].status) && s.requests[q].status != Streaming
    && a !in s.active && a in s.responders && a in s.sessions
    && Suits(s.requests[q].ask, a, KindOrHuman(s.sessions[a].kind), AcceptsAi(s, a))
  }

  function CompatibleIn(s: State): Matching.Compat {
    (q, a) => Compatible(s, q, a)
  }

  ghost predicate Quiescent(s: State) {
    Matching.NoPair(s.queue, s.available, CompatibleIn(s))
  }

  function ResponderOf(s: State, a: Id): Responder
    requires a in s.sessions
  {
    Responder(a, s.sessions[a].user, s.sessions[a].guest, KindOrHuman(s.sessions[a].kind))
  }

  /** Takes the pair out of both lists and marks the request assigned. */
  function Assign(s: State, i: nat, j: nat, now: int): State
    requires i < |s.queue| && j < |s.available| && Compatible(s, s.queue[i], s.available[j])
  {
    var q, a := s.queue[i], s.available[j];
    s.(queue := RemoveAt(s.queue, i), available := RemoveAt(s.available, j),
       requests := s.requests[q := AssignRequest(s.requests[q], ResponderOf(s, a), now)],
       active := s.active[a := q])
  }

  /** Hands the assignment to the responder's inbox, or takes it back when the inbox is full. */
  function Deliver(s: State, q: Id, a: Id, now: int): State
    requires q in s.requests && a in s.responders
  {
    if |s.responders[a]| < INBOX_CAPACITY
    then s.(responders := s.responders[a := s.responders[a] + [q]])
    else Requeue(s, q, now)
  }

  function AssignNext(s: State, i: nat, j: nat, now: int): State
    requires i < |s.queue| && j < |s.available| && Compatible(s, s.queue[i], s.available[j])
  {
    Deliver(Assign(s, i, j, now), s.queue[i], s.available[j], now)
  }

  /** The matching pass: pairs are handed out until none is left. */
  function TryAssign(s: State, now: int): State
    decreases |s.available|
  {
    match Matching.MemoryNext(s.queue, s.available, CompatibleIn(s))
    case None => s
    case Some((i, j)) => TryAssign(AssignNext(s, i, j, now), now)
  }

  // ---------------------------------------------------------------- request transitions

  /** Frees the responder of `r`, if it has one. */
  function Release(active: map<Id, Id>, r: Request): map<Id, Id> {
    if r.responder.Responder? then active - {r.responder.session} else active
  }

  function Requeue(s: State, q: Id, now: int): State
    requires q in s.requests
  {
    var r := s.requests[q];
    s.(active := Release(s.active, r), requests := s.requests[q := RequeueRequest(r, now)], queue := s.queue + [q])
  }

  function Abandon(s: State, q: Id, now: int): State
    requires q in s.requests
  {
    var r := s.requests[q];
    s.(queue := Without(s.queue, q), active := Release(s.active, r), requests := s.requests[q := AbandonRequest(r, now)])
  }

  function Complete(s: State, q: Id, reason: Reason, now: int): State
    requires q in s.requests
  {
    var r := s.requests[q];
    if IsTerminal(r.status) then s
    else
      s.(active := Release(s.active, r), requests := s.requests[q := CompleteRequest(r, reason, now)],
         ledger := if EarnsReward(r) then s.ledger + [Entry(r.responder.user, q, AnswerReward, BASE_ANSWER_REWARD)] else s.ledger)
  }

  /** Giving up an uncommitted assignment: a targeted request ends, any other goes back to the queue. */
  function GiveUp(s: State, q: Id, now: int): State
    requires q in s.requests
  {
    if s.requests[q].ask.preferred != "" then Abandon(s, q, now) else Requeue(s, q, now)
  }

  // ---------------------------------------------------------------- requester operations

  function OutputLimit(maxOutput: int): int {
    if maxOutput <= 0 || maxOutput > OUTPUT_LIMIT then OUTPUT_LIMIT else maxOutput
  }

  function NewRequest(id: Id, session: Session, allowAi: bool, preferred: Id, messages: seq<Message>, maxOutput: int, now: int): Request {
    Request(Ask(session.user, id, session.guest, KindOrHuman(session.kind), allowAi, preferred, messages, OutputLimit(maxOutput)),
            Queued, Nobody, if session.guest then 0 else QUESTION_COST, false, NoReason, Neutral, now, None, [], map[], map[])
  }

  ghost function CreateRequest(s: State, token: Id, q: Id, messages: seq<Message>, maxOutput: int,
                               allowAi: bool, preferred: Id, now: int): (State, Result<Id>) {
    if InputSize(messages) > INPUT_LIMIT then (s, Err(InputTooLarge))
    else match SessionOf(s, token)
      case None => (s, Err(Unauthorized))
      case Some(id) =>
        var session := s.sessions[id];
        if preferred != "" && KindOrHuman(session.kind) != AiPersona then (s, Err(Unauthorized))
        else if !session.guest && BalanceOf(s, session.user).available < QUESTION_COST then (s, Err(InsufficientPoints))
        else
          var r := NewRequest(id, session, allowAi, preferred, messages, maxOutput, now);
          (TryAssign(s.(requests := s.requests[q := r], queue := s.queue + [q]), now), Ok(q))
  }

  ghost function CreateTargetedRequest(s: State, token: Id, q: Id, messages: seq<Message>, maxOutput: int,
                                       preferred: Id, now: int): (State, Result<Id>) {
    if preferred == "" then (s, Err(ResponderUnavailable))
    else CreateRequest(s, token, q, messages, maxOutput, false, preferred, now)
  }

  function Cancel(s: State, q: Id, now: int): (State, bool) {
    if q !in s.requests || IsTerminal(s.requests[q].status) || s.requests[q].fragments != [] then (s, false)
    else (Abandon(s, q, now), true)
  }

  predicate IsRequester(session: Id, info: Session, ask: Ask) {
    (!info.guest && ask.requester == info.user) || (info.guest && ask.guest && ask.session == session)
  }

  ghost function React(s: State, token: Id, q: Id, reaction: Reaction, now: int): (State, Result<Balance>) {
    if reaction == Unknown then (s, Err(InvalidArgument))
    else match SessionOf(s, token)
      case None => (s, Err(Unauthorized))
      case Some(id) =>
        if q !in s.requests then (s, Err(RequestNotFound))
        else
          var r, session := s.requests[q], s.sessions[id];
          if !IsRequester(id, session, r.ask) || !IsTerminal(r.status) then (s, Err(ReactionNotAllowed))
          else if r.completedAt.None? || now - r.completedAt.value > REACTION_WINDOW then (s, Err(ReactionNotAllowed))
          else
            var s' := ApplyReaction(s, q, reaction);
            (s', Ok(if session.guest then NO_BALANCE
                    else BalanceOf(s', if Paid(r) then r.responder.user else session.user)))
  }

  /** Whether the responder of `r` has an account that rewards go to. */
  predicate Paid(r: Request) {
    r.responder.Responder? && !r.responder.guest && r.responder.user != ""
  }

  function ApplyReaction(s: State, q: Id, reaction: Reaction): State
    requires q in s.requests
  {
    var r := s.requests[q];
    var delta := RewardFor(reaction) - RewardFor(r.reaction);
    s.(requests := s.requests[q := r.(reaction := reaction)],
       ledger := if Paid(r) && delta != 0 then s.ledger + [Entry(r.responder.user, q, ReactionAdjustment, delta)] else s.ledger)
  }

  // ---------------------------------------------------------------- responder operations

  function RegisterResponder(s: State, token: Id): (State, Result<Id>) {
    match SessionOf(s, token)
    case None => (s, Err(Unauthorized))
    case Some(id) => (s.(responders := s.responders[id := []]), Ok(id))
  }

  function ReceiveAssignment(s: State, a: Id): State {
    if a in s.responders && s.responders[a] != [] then s.(responders := s.responders[a := s.responders[a][1..]]) else s
  }

  function Disconnect(s: State, a: Id): State {
    s.(responders := s.responders - {a}, acceptAi := s.acceptAi - {a}, available := Without(s.available, a))
  }

  function UnregisterResponder(s: State, a: Id, now: int): State {
    var s' := Disconnect(s, a);
    if a in s.active && s.active[a] in s.requests && !IsTerminal(s.requests[s.active[a]].status) then
      var q := s.active[a];
      if s.requests[q].fragments == [] then GiveUp(s', q, now) else Complete(s', q, Partial, now)
    else s'
  }

  function Offer(s: State, a: Id, now: int): State {
    if a in s.active then s
    else TryAssign(if a in s.available then s else s.(available := s.available + [a]), now)
  }

  function MarkAvailable(s: State, a: Id, acceptAi: bool, now: int): (State, Result<()>) {
    if a !in s.responders then (s, Err(ResponderUnavailable))
    else (Offer(s.(acceptAi := s.acceptAi[a := acceptAi]), a, now), Ok(()))
  }

  function ResumeResponder(s: State, a: Id, now: int): (State, Result<()>) {
    if a !in s.responders then (s, Err(ResponderUnavailable)) else (Offer(s, a, now), Ok(()))
  }

  function FallbackSession(q: Id): Id {
    "fallback_" + q
  }

  predicate FallbackMayTake(s: State, q: Id) {
    && q in s.requests && s.requests[q].ask.preferred == "" && s.requests[q].ask.allowAi
    && s.requests[q].status == Queued && s.requests[q].fragments == []
  }

  function AcquireFallback(s: State, q: Id, now: int): (State, Option<Id>) {
    if !FallbackMayTake(s, q) then (s, None)
    else
      var a := FallbackSession(q);
      (s.(queue := Without(s.queue, q), active := s.active[a := q],
          requests := s.requests[q := AssignRequest(s.requests[q], Responder(a, "", true, Fallback), now)]), Some(a))
  }

  function SubmitFragment(s: State, a: Id, clientSeq: int, text: string, fragment: Id, now: int): (State, Result<(Fragment, bool)>) {
    if clientSeq <= 0 || text == "" then (s, Err(InvalidArgument))
    else if a !in s.active then (s, Err(NoActiveAssignment))
    else
      var q := s.active[a];
      if q !in s.requests then (s, Err(RequestNotFound))
      else
        var r, key := s.requests[q], SeqKey(a, clientSeq);
        if IsTerminal(r.status) then (s, Err(AlreadyCompleted))
        else if key in r.seen then (s, Ok((r.seen[key], true)))
        else if |AnswerText(r.fragments)| + |text| > r.ask.limit then (s, Err(OutputTooLarge))
        else
          var f := Fragment(fragment, a, clientSeq, text, now);
          (Commit(s, q, f), Ok((f, false)))
  }

  /** Stores a new fragment, charges the question once, and completes the request at its length limit. */
  function Commit(s: State, q: Id, f: Fragment): State
    requires q in s.requests && f.clientSeq > 0
  {
    var r := s.requests[q];
    var r' := AppendFragment(r, f);
    var s' := s.(requests := s.requests[q := r'],
                 ledger := if !r.charged && !r.ask.guest then s.ledger + [Entry(r.ask.requester, q, QuestionCharge, -QUESTION_COST)]
                           else s.ledger);
    if |AnswerText(r'.fragments)| >= r'.ask.limit then Complete(s', q, Length, f.at) else s'
  }

  function Finish(s: State, a: Id, now: int): (State, Result<()>) {
    if a !in s.active then (s, Err(NoActiveAssignment))
    else if s.active[a] !in s.requests then (s, Err(RequestNotFound))
    else if s.requests[s.active[a]].fragments == [] then (s, Err(InvalidArgument))
    else (Complete(s, s.active[a], Stop, now), Ok(()))
  }

  function Skip(s: State, a: Id, now: int): (State, Result<()>) {
    if a !in s.active then (s, Err(NoActiveAssignment))
    else if s.active[a] !in s.requests then (s, Err(RequestNotFound))
    else
      var q := s.active[a];
      var r := s.requests[q];
      if r.fragments != [] then (s, Err(CannotSkipCommitted))
      else if r.ask.preferred != "" || r.ask.kind == AiPersona then (Abandon(s, q, now), Ok(()))
      else (TryAssign(Requeue(s, q, now), now), Ok(()))
  }

  // ---------------------------------------------------------------- timeouts

  predicate AssignmentExpired(r: Request, now: int, assignedTimeout: int) {
    r.status == Assigned && r.fragments == [] && assignedTimeout > 0 && now - r.updatedAt >= assignedTimeout
  }

  predicate StreamExpired(r: Request, now: int, streamingTimeout: int) {
    r.status == Streaming && r.fragments != [] && streamingTimeout > 0 && now - r.updatedAt >= streamingTimeout
  }

  function SweepOne(s: State, q: Id, now: int, assignedTimeout: int, streamingTimeout: int): (State, bool) {
    if q !in s.requests then (s, false)
    else if AssignmentExpired(s.requests[q], now, assignedTimeout) then (GiveUp(s, q, now), true)
    else if StreamExpired(s.requests[q], now, streamingTimeout) then (Complete(s, q, Partial, now), true)
    else (s, false)
  }

  /** The sweep over the requests in the order the map iteration happens to visit them. */
  function SweepAll(s: State, order: seq<Id>, now: int, assignedTimeout: int, streamingTimeout: int): (State, bool) {
    if order == [] then (s, false)
    else
      var n := |order| - 1;
      var (s', changed) := SweepAll(s, order[..n], now, assignedTimeout, streamingTimeout);
      var (s'', more) := SweepOne(s', order[n], now, assignedTimeout, streamingTimeout);
      (s'', changed || more)
  }

  function SweepTimeouts(s: State, order: seq<Id>, now: int, assignedTimeout: int, streamingTimeout: int): State {
    var (s', changed) := SweepAll(s, order, now, assignedTimeout, streamingTimeout);
    if changed then TryAssign(s', now) else s'
  }

  // ---------------------------------------------------------------- subscribers

  /** What a new subscriber finds in its channel: the text so far in one piece, then the end if it came. */
  function Replay(r: Request): seq<Event> {
    var answer := AnswerText(r.fragments);
    (if answer != "" then [Text(answer)] else []) + (if IsTerminal(r.status) then [Done(r.finish)] else [])
  }

  function Subscribe(s: State, q: Id, sub: Id): (State, Result<()>) {
    if q !in s.requests then (s, Err(RequestNotFound))
    else
      var r := s.requests[q];
      var log := Replay(r);
      (s.(requests := s.requests[q := r.(subscribers := r.subscribers[sub := Subscriber(log, |log|, false, IsTerminal(r.status))])]), Ok(()))
  }

  function Unsubscribe(s: State, q: Id, sub: Id): State {
    if q !in s.requests then s
    else s.(requests := s.requests[q := s.requests[q].(subscribers := s.requests[q].subscribers - {sub})])
  }

  function ReceiveEvent(s: State, q: Id, sub: Id): State {
    if q !in s.requests then s
    else s.(requests := s.requests[q := s.requests[q].(subscribers := TakeOne(s.requests[q].subscribers, sub))])
  }

  // ---------------------------------------------------------------- steps and runs

  datatype Op =
    | DoRegister(user: Id, token: Id, session: Id)
    | DoLogin(user: Id, token: Id, session: Id)
    | DoGuest(token: Id, session: Id)
    | DoPersona(token: Id, session: Id)
    | DoCreate(token: Id, request: Id, messages: seq<Message>, maxOutput: int, allowAi: bool, now: int)
    | DoCreateTargeted(token: Id, request: Id, messages: seq<Message>, maxOutput: int, preferred: Id, now: int)
    | DoCancel(request: Id, now: int)
    | DoReact(token: Id, request: Id, reaction: Reaction, now: int)
    | DoRegisterResponder(token: Id)
    | DoReceiveAssignment(session: Id)
    | DoUnregister(session: Id, now: int)
    | DoMarkAvailable(session: Id, acceptAi: bool, now: int)
    | DoResume(session: Id, now: int)
    | DoFallback(request: Id, now: int)
    | DoSubmit(session: Id, clientSeq: int, text: string, fragment: Id, now: int)
    | DoFinish(session: Id, now: int)
    | DoSkip(session: Id, now: int)
    | DoSweep(order: seq<Id>, now: int, assignedTimeout: int, streamingTimeout: int)
    | DoSubscribe(request: Id, sub: Id)
    | DoUnsubscribe(request: Id, sub: Id)
    | DoReceiveEvent(request: Id, sub: Id)

  ghost function Step(s: State, op: Op): State {
    match op
    case DoRegister(user, token, id) => Register(s, user, token, id)
    case DoLogin(user, token, id) => AddSession(s, token, id, Session(user, false, Human))
    case DoGuest(token, id) => AddSession(s, token, id, Session("", true, Human))
    case DoPersona(token, id) => AddSession(s, token, id, Session("", true, AiPersona))
    case DoCreate(token, q, messages, max, allow, now) => CreateRequest(s, token, q, messages, max, allow, "", now).0
    case DoCreateTargeted(token, q, messages, max, preferred, now) => CreateTargetedRequest(s, token, q, messages, max, preferred, now).0
    case DoCancel(q, now) => Cancel(s, q, now).0
    case DoReact(token, q, reaction, now) => React(s, token, q, reaction, now).0
    case DoRegisterResponder(token) => RegisterResponder(s, token).0
    case DoReceiveAssignment(a) => ReceiveAssignment(s, a)
    case DoUnregister(a, now) => UnregisterResponder(s, a, now)
    case DoMarkAvailable(a, accept, now) => MarkAvailable(s, a, accept, now).0
    case DoResume(a, now) => ResumeResponder(s, a, now).0
    case DoFallback(q, now) => AcquireFallback(s, q, now).0
    case DoSubmit(a, n, text, f, now) => SubmitFragment(s, a, n, text, f, now).0
    case DoFinish(a, now) => Finish(s, a, now).0
    case DoSkip(a, now) => Skip(s, a, now).0
    case DoSweep(order, now, at, st) => SweepTimeouts(s, order, now, at, st)
    case DoSubscribe(q, sub) => Subscribe(s, q, sub).0
    case DoUnsubscribe(q, sub) => Unsubscribe(s, q, sub)
    case DoReceiveEvent(q, sub) => ReceiveEvent(s, q, sub)
  }

  /** Session ids come from `newID("ses")`, which no fallback session id can equal. */
  predicate FreshSession(s: State, token: Id, id: Id) {
    token !in s.tokens && id !in s.sessions && "ses_" <= id
  }

  /** Identifiers handed out by the random source are new; log-ins name an existing account;
      a sweep visits every request once. */
  ghost predicate Enabled(s: State, op: Op) {
    match op
    case DoRegister(user, token, id) => user != "" && user !in s.users && FreshSession(s, token, id)
    case DoLogin(user, token, id) => user in s.users && FreshSession(s, token, id)
    case DoGuest(token, id) => FreshSession(s, token, id)
    case DoPersona(token, id) => FreshSession(s, token, id)
    case DoCreate(token, q, messages, max, allow, now) => q !in s.requests
    case DoCreateTargeted(token, q, messages, max, preferred, now) => q !in s.requests
    case DoSweep(order, now, at, st) => NoDup(order) && forall q :: q in order <==> q in s.requests
    case DoSubscribe(q, sub) => q in s.requests ==> sub !in s.requests[q].subscribers
    case _ => true
  }

  ghost function Run(s: State, ops: seq<Op>): State {
    if ops == [] then s else Step(Run(s, ops[..|ops| - 1]), ops[|ops| - 1])
  }

  ghost predicate ValidRun(s: State, ops: seq<Op>) {
    ops == [] || (ValidRun(s, ops[..|ops| - 1]) && Enabled(Run(s, ops[..|ops| - 1]), ops[|ops| - 1]))
  }
}
