/** The entities of the in-memory service and the pure rules on a single request. */
module Domain {
  import opened Sequences

  const SIGNUP_GRANT := 20
  const QUESTION_COST := 5
  const BASE_ANSWER_REWARD := 10
  const INPUT_LIMIT := 100000
  const OUTPUT_LIMIT := 128000
  const INBOX_CAPACITY := 4
  const SUBSCRIBER_CAPACITY := 64
  /** Twenty-four hours in nanoseconds. */
  const REACTION_WINDOW := 86_400_000_000_000

  datatype Status = Queued | Assigned | Streaming | Completed | TimeoutCompleted | Abandoned

  /** `Unset` is the empty kind of a session, which counts as a human. */
  datatype Kind = Unset | Human | AiPersona | Fallback

  /** `Unknown` stands for any reaction string the service rejects. */
  datatype Reaction = Neutral | Like | Dislike | Unknown

  datatype Reason = NoReason | Stop | Length | Partial

  datatype Message = Message(role: string, content: string)

  datatype Session = Session(user: Id, guest: bool, kind: Kind)

  /** What the requester asked; fixed when the request is created. */
  datatype Ask = Ask(requester: Id, session: Id, guest: bool, kind: Kind, allowAi: bool, preferred: Id,
                     messages: seq<Message>, limit: int)

  /** The responder fields of a request; `Nobody` when they are cleared. */
  datatype Responder = Nobody | Responder(session: Id, user: Id, guest: bool, kind: Kind)

  datatype Fragment = Fragment(id: Id, session: Id, clientSeq: int, text: string, at: int)

  datatype Event = Text(text: string) | Done(reason: Reason)

  /** A stream subscriber: every event put in its channel so far, how many of them are still
      buffered, whether an event was ever dropped because the buffer was full, and whether it
      subscribed only after the request had ended. */
  datatype Subscriber = Subscriber(log: seq<Event>, pending: nat, lost: bool, late: bool)

  datatype Request = Request(
    ask: Ask, status: Status, responder: Responder, frozen: int, charged: bool, finish: Reason, reaction: Reaction,
    updatedAt: int, completedAt: Option<int>,
    fragments: seq<Fragment>, seen: map<string, Fragment>, subscribers: map<Id, Subscriber>)

  datatype EntryKind = SignupGrant | QuestionCharge | AnswerReward | ReactionAdjustment

  datatype Entry = Entry(user: Id, request: Id, kind: EntryKind, delta: int)

  datatype Error =
    | Unauthorized | InsufficientPoints | InputTooLarge | OutputTooLarge | NoActiveAssignment | AlreadyCompleted
    | CannotSkipCommitted | ReactionNotAllowed | RequestNotFound | ResponderUnavailable | InvalidArgument

  datatype Result<+T> = Ok(value: T) | Err(error: Error)

  function KindOrHuman(kind: Kind): Kind {
    if kind == Unset then Human else kind
  }

  predicate IsTerminal(status: Status) {
    status == Completed || status == TimeoutCompleted || status == Abandoned
  }

  function RewardFor(reaction: Reaction): int {
    match reaction
    case Like => BASE_ANSWER_REWARD * 2
    case Dislike => 8
    case _ => BASE_ANSWER_REWARD
  }

  // ---------------------------------------------------------------- answer text

  function AnswerText(fragments: seq<Fragment>): string {
    if fragments == [] then "" else AnswerText(fragments[..|fragments| - 1]) + fragments[|fragments| - 1].text
  }

  function LogText(log: seq<Event>): string {
    if log == [] then ""
    else LogText(log[..|log| - 1]) + (match log[|log| - 1] case Text(t) => t case Done(_) => "")
  }

  function InputSize(messages: seq<Message>): nat {
    if messages == [] then 0 else InputSize(messages[..|messages| - 1]) + |messages[|messages| - 1].content|
  }

  // ---------------------------------------------------------------- idempotency key

  const DIGITS := "0123456789"

  /** Decimal rendering of a positive number, as `%d` prints it. */
  function Decimal(n: nat): (s: string)
    ensures |s| > 0
    ensures forall i :: 0 <= i < |s| ==> s[i] != ':'
  {
    assert forall d :: 0 <= d < 10 ==> DIGITS[d] != ':';
    if n < 10 then [DIGITS[n]] else Decimal(n / 10) + [DIGITS[n % 10]]
  }

  function SeqKey(session: Id, clientSeq: int): string
    requires clientSeq > 0
  {
    session + ":" + Decimal(clientSeq)
  }

  lemma {:induction false} DecimalInjective(m: nat, n: nat)
    requires Decimal(m) == Decimal(n)
    ensures m == n
  {
    DecimalLong(m);
    DecimalLong(n);
    if m >= 10 && n >= 10 {
      var dm, dn := Decimal(m), Decimal(n);
      assert dm[..|dm| - 1] == Decimal(m / 10);
      assert dn[..|dn| - 1] == Decimal(n / 10);
      assert dm[|dm| - 1] == DIGITS[m % 10];
      assert dn[|dn| - 1] == DIGITS[n % 10];
      DecimalInjective(m / 10, n / 10);
      DigitsDistinct(m % 10, n % 10);
    } else if m < 10 && n < 10 {
      DigitsDistinct(m, n);
    } else {
      assert false;
    }
  }

  lemma DigitsDistinct(a: nat, b: nat)
    requires a < 10 && b < 10 && DIGITS[a] == DIGITS[b]
    ensures a == b
  {
  }

  lemma DecimalLong(n: nat)
    ensures n >= 10 <==> |Decimal(n)| > 1
  {
    assert n >= 10 ==> |Decimal(n / 10)| > 0;
  }

  /** The key determines both the session and the client sequence, whatever characters the session id has. */
  lemma SeqKeyInjective(s: Id, m: int, t: Id, n: int)
    requires m > 0 && n > 0
    requires SeqKey(s, m) == SeqKey(t, n)
    ensures s == t && m == n
  {
    var key, dm, dn := SeqKey(s, m), Decimal(m), Decimal(n);
    assert key[|s|] == ':' && key[|t|] == ':';
    assert forall i :: |s| < i < |key| ==> key[i] == dm[i - |s| - 1];
    assert forall i :: |t| < i < |key| ==> key[i] == dn[i - |t| - 1];
    assert |s| == |t|;
    assert key[..|s|] == s && key[..|t|] == t;
    assert key[|s| + 1..] == dm && key[|t| + 1..] == dn;
    DecimalInjective(m, n);
  }

  // ---------------------------------------------------------------- transitions of one request

  /** Non-blocking send to one subscriber channel. */
  function Push(sub: Subscriber, e: Event): Subscriber {
    if sub.pending < SUBSCRIBER_CAPACITY
    then Subscriber(sub.log + [e], sub.pending + 1, sub.lost, sub.late)
    else sub.(lost := true)
  }

  function Publish(subscribers: map<Id, Subscriber>, e: Event): map<Id, Subscriber> {
    map k | k in subscribers :: Push(subscribers[k], e)
  }

  /** The consumer takes one buffered event, if there is one. */
  function TakeOne(subscribers: map<Id, Subscriber>, sub: Id): map<Id, Subscriber> {
    if sub in subscribers && subscribers[sub].pending > 0
    then subscribers[sub := subscribers[sub].(pending := subscribers[sub].pending - 1)]
    else subscribers
  }

  function AssignRequest(r: Request, responder: Responder, now: int): Request {
    r.(status := Assigned, responder := responder, updatedAt := now)
  }

  function RequeueRequest(r: Request, now: int): Request {
    r.(status := Queued, responder := Nobody, updatedAt := now)
  }

  function AbandonRequest(r: Request, now: int): Request {
    r.(status := Abandoned, responder := Nobody, frozen := 0, updatedAt := now,
       subscribers := Publish(r.subscribers, Done(Stop)))
  }

  function CompleteRequest(r: Request, reason: Reason, now: int): Request {
    r.(status := if reason == Partial then TimeoutCompleted else Completed, finish := reason,
       updatedAt := now, completedAt := Some(now), subscribers := Publish(r.subscribers, Done(reason)))
  }

  /** The part of a fragment submission before the length limit is checked again. */
  function AppendFragment(r: Request, f: Fragment): Request
    requires f.clientSeq > 0
  {
    r.(fragments := r.fragments + [f], seen := r.seen[SeqKey(f.session, f.clientSeq) := f],
       charged := true, frozen := if r.charged then r.frozen else 0,
       status := Streaming, updatedAt := f.at, subscribers := Publish(r.subscribers, Text(f.text)))
  }

  /** A responder with an account is paid for a completed answer. */
  predicate EarnsReward(r: Request) {
    r.fragments != [] && r.responder.Responder? && !r.responder.guest && r.responder.user != ""
  }
}
