/** The invariant of the in-memory service and the proof that each elementary transition keeps it. */
module ServiceInvariant {
  import opened Sequences
  import opened Domain
  import opened Sums
  import opened ServiceSpec
  import opened RequestRules

  // ---------------------------------------------------------------- the invariant

  /** The queue holds exactly the queued requests, once each. */
  ghost predicate QueueOk(s: State) {
    NoDup(s.queue) && forall q :: q in s.queue <==> q in s.requests && s.requests[q].status == Queued
  }

  /** Session `a` holds request `q`, either as a known session or as the fallback of that very request. */
  ghost predicate Holds(s: State, a: Id, q: Id) {
    && q in s.requests && IsHeld(s.requests[q].status)
    && s.requests[q].responder.Responder? && s.requests[q].responder.session == a
    && (a in s.sessions || a == FallbackSession(q))
  }

  /** The active map is a bijection between busy responders and assigned or streaming requests. */
  ghost predicate ActiveOk(s: State) {
    && (forall a :: a in s.active ==> Holds(s, a, s.active[a]))
    && (forall q :: q in s.requests && IsHeld(s.requests[q].status) ==>
          && s.requests[q].responder.Responder?
          && s.requests[q].responder.session in s.active
          && s.active[s.requests[q].responder.session] == q)
  }

  /** Available responders are listed once, registered and not busy. */
  ghost predicate AvailableOk(s: State) {
    NoDup(s.available) && forall a :: a in s.available ==> a in s.responders && a !in s.active
  }

  ghost predicate SessionOk(users: set<Id>, id: Id, session: Session) {
    && "ses_" <= id
    && (session.guest <==> session.user == "")
    && (!session.guest ==> session.user in users)
    && session.kind != Fallback
  }

  ghost predicate RosterOk(s: State) {
    && "" !in s.users
    && (forall id :: id in s.sessions ==> SessionOk(s.users, id, s.sessions[id]))
    && (forall t :: t in s.tokens ==> s.tokens[t] in s.sessions)
    && (forall a :: a in s.responders ==> a in s.sessions && |s.responders[a]| <= INBOX_CAPACITY)
    && (forall a :: a in s.acceptAi ==> a in s.responders)
  }

  /** Requester and responder accounts exist; only personas target a responder, and never with AI allowed. */
  ghost predicate PeopleOk(users: set<Id>, r: Request) {
    && (r.ask.guest <==> r.ask.requester == "")
    && (!r.ask.guest ==> r.ask.requester in users)
    && (r.responder.Responder? && r.responder.user != "" ==> r.responder.user in users)
    && (r.ask.preferred != "" ==> r.ask.kind == AiPersona && !r.ask.allowAi)
  }

  ghost predicate RequestsOk(s: State) {
    forall q :: q in s.requests ==> RequestOk(s.requests[q]) && PeopleOk(s.users, s.requests[q])
  }

  /** What `r` has contributed to the ledger of `user`. */
  function Earned(r: Request, user: Id): int {
    (if AskedBy(r, user) then -QUESTION_COST else 0) + (if AnsweredBy(r, user) then RewardFor(r.reaction) else 0)
  }

  function EarnedFor(user: Id): Request -> int {
    r => Earned(r, user)
  }

  /** `user` asked `r` and a fragment of the answer has been committed. */
  predicate AskedBy(r: Request, user: Id) {
    r.fragments != [] && !r.ask.guest && r.ask.requester == user
  }

  /** `user` answered `r` from an account, and the answer is complete. */
  predicate AnsweredBy(r: Request, user: Id) {
    r.completedAt.Some? && Paid(r) && r.responder.user == user
  }

  /** How far below the best reward the answer of `r` by `user` is paid at present. */
  function Slack(r: Request, user: Id): int {
    if AnsweredBy(r, user) then RewardFor(Like) - RewardFor(r.reaction) else 0
  }

  function SlackFor(user: Id): Request -> int {
    r => Slack(r, user)
  }

  function Drop(e: Entry, user: Id): int {
    if e.user == user && e.kind == ReactionAdjustment && e.delta < 0 then -e.delta else 0
  }

  /** Points taken back from `user` by reactions so far. */
  function Lowered(ledger: seq<Entry>, user: Id): int {
    if ledger == [] then 0 else Lowered(ledger[..|ledger| - 1], user) + Drop(ledger[|ledger| - 1], user)
  }

  ghost function Spendable(s: State, user: Id): int {
    Total(s.ledger, user) - Held(s.requests, user)
  }

  ghost predicate BooksOk(s: State) {
    && (forall e :: e in s.ledger ==> e.user in s.users)
    && (forall u :: u in s.users ==> Total(s.ledger, u) == SIGNUP_GRANT + Sum(s.requests, EarnedFor(u)))
  }

  ghost predicate Solvent(s: State) {
    forall u :: u in s.users ==>
      Spendable(s, u) + Sum(s.requests, SlackFor(u)) >= 0 && Spendable(s, u) + Lowered(s.ledger, u) >= 0
  }

  ghost predicate Inv(s: State) {
    QueueOk(s) && ActiveOk(s) && AvailableOk(s) && RosterOk(s) && RequestsOk(s) && BooksOk(s) && Solvent(s)
  }

  /** How the state may change over any run. */
  ghost predicate Advances(s: State, s': State) {
    && (forall q :: q in s.requests ==> q in s'.requests && Evolves(s.requests[q], s'.requests[q]))
    && (forall id :: id in s.sessions ==> id in s'.sessions && s'.sessions[id] == s.sessions[id])
    && s.ledger <= s'.ledger
    && s.users <= s'.users
    && Affords(s, s')
  }

  /** Apart from what reactions take back, nobody spends what is not there. */
  ghost predicate Affords(s: State, s': State) {
    forall u :: u in s.users ==> AffordsFor(s, s', u)
  }

  ghost predicate AffordsFor(s: State, s': State, u: Id) {
    var left := Spendable(s', u) + Lowered(s'.ledger, u) - Lowered(s.ledger, u);
    left >= Spendable(s, u) || left >= 0
  }

  lemma {:induction false} LoweredGrows(ledger: seq<Entry>, ledger': seq<Entry>, u: Id)
    requires ledger <= ledger'
    ensures Lowered(ledger, u) <= Lowered(ledger', u)
    decreases |ledger'|
  {
    if ledger' != ledger {
      LoweredGrows(ledger, ledger'[..|ledger'| - 1], u);
    }
  }

  lemma AffordsTransitive(s: State, t: State, v: State)
    requires Affords(s, t) && Affords(t, v) && s.users <= t.users && t.ledger <= v.ledger && s.ledger <= t.ledger
    ensures Affords(s, v)
  {
    forall u | u in s.users ensures AffordsFor(s, v, u) {
      assert AffordsFor(s, t, u) && AffordsFor(t, v, u);
      LoweredGrows(s.ledger, t.ledger, u);
    }
  }

  lemma AdvancesTransitive(s: State, t: State, u: State)
    requires Advances(s, t) && Advances(t, u)
    ensures Advances(s, u)
  {
    forall q | q in s.requests ensures q in u.requests && Evolves(s.requests[q], u.requests[q]) {
      EvolvesTransitive(s.requests[q], t.requests[q], u.requests[q]);
    }
    AffordsTransitive(s, t, u);
  }

  // ---------------------------------------------------------------- ledger arithmetic

  lemma TotalAppend(ledger: seq<Entry>, e: Entry, user: Id)
    ensures Total(ledger + [e], user) == Total(ledger, user) + (if e.user == user then e.delta else 0)
    ensures Lowered(ledger + [e], user) == Lowered(ledger, user) + Drop(e, user)
  {
    assert (ledger + [e])[..|ledger|] == ledger;
  }

  function EarnedBefore(s: State, q: Id, u: Id): int {
    if q in s.requests then Earned(s.requests[q], u) else 0
  }

  function HeldBefore(s: State, q: Id, u: Id): int {
    if q in s.requests then HeldBy(s.requests[q], u) else 0
  }

  function SlackBefore(s: State, q: Id, u: Id): int {
    if q in s.requests then Slack(s.requests[q], u) else 0
  }

  /** The change of request `q` from its old record to `r` is booked by `ledger`, and costs `u` nothing
      that a hold, a lowered reward or the current balance does not cover. */
  ghost predicate Booked(s: State, q: Id, r: Request, ledger: seq<Entry>, u: Id) {
    var spent := Total(ledger, u) - Total(s.ledger, u) - HeldBy(r, u) + HeldBefore(s, q, u);
    && Total(ledger, u) - Total(s.ledger, u) == Earned(r, u) - EarnedBefore(s, q, u)
    && (spent + Slack(r, u) - SlackBefore(s, q, u) >= 0 || (Spendable(s, u) + spent >= 0 && Slack(r, u) >= SlackBefore(s, q, u)))
    && (spent + Lowered(ledger, u) - Lowered(s.ledger, u) >= 0
        || (Spendable(s, u) + spent >= 0 && Lowered(ledger, u) >= Lowered(s.ledger, u)))
  }

  lemma {:induction false} LoweredNonNegative(ledger: seq<Entry>, u: Id)
    ensures Lowered(ledger, u) >= 0
  {
    if ledger != [] {
      LoweredNonNegative(ledger[..|ledger| - 1], u);
    }
  }

  lemma BooksStepFor(s: State, s': State, q: Id, r: Request, u: Id)
    requires BooksOk(s) && Solvent(s) && u in s.users
    requires s'.requests == s.requests[q := r]
    requires Booked(s, q, r, s'.ledger, u)
    ensures Total(s'.ledger, u) == SIGNUP_GRANT + Sum(s'.requests, EarnedFor(u))
    ensures Spendable(s', u) + Sum(s'.requests, SlackFor(u)) >= 0
    ensures Spendable(s', u) + Lowered(s'.ledger, u) >= 0
    ensures AffordsFor(s, s', u)
  {
    EarnedStep(s, q, r, u);
    HeldStep(s, q, r, u);
    SlackStep(s, q, r, u);
    LoweredNonNegative(s.ledger, u);
  }

  lemma EarnedStep(s: State, q: Id, r: Request, u: Id)
    ensures Sum(s.requests[q := r], EarnedFor(u)) == Sum(s.requests, EarnedFor(u)) + Earned(r, u) - EarnedBefore(s, q, u)
  {
    SumUpdate(s.requests, q, r, EarnedFor(u));
  }

  lemma HeldStep(s: State, q: Id, r: Request, u: Id)
    ensures Held(s.requests[q := r], u) == Held(s.requests, u) + HeldBy(r, u) - HeldBefore(s, q, u)
  {
    SumUpdate(s.requests, q, r, HeldFor(u));
  }

  lemma SlackStep(s: State, q: Id, r: Request, u: Id)
    ensures Sum(s.requests[q := r], SlackFor(u)) == Sum(s.requests, SlackFor(u)) + Slack(r, u) - SlackBefore(s, q, u)
    ensures Sum(s.requests, SlackFor(u)) >= 0
  {
    SumUpdate(s.requests, q, r, SlackFor(u));
    SumNonNegative(s.requests, SlackFor(u));
  }

  lemma BooksStep(s: State, s': State, q: Id, r: Request)
    requires BooksOk(s) && Solvent(s)
    requires s'.requests == s.requests[q := r] && s'.users == s.users
    requires forall e :: e in s'.ledger ==> e.user in s'.users
    requires forall u :: u in s.users ==> Booked(s, q, r, s'.ledger, u)
    ensures BooksOk(s') && Solvent(s') && Affords(s, s')
  {
    forall u | u in s'.users
      ensures Total(s'.ledger, u) == SIGNUP_GRANT + Sum(s'.requests, EarnedFor(u))
      ensures Spendable(s', u) + Sum(s'.requests, SlackFor(u)) >= 0
      ensures Spendable(s', u) + Lowered(s'.ledger, u) >= 0
      ensures AffordsFor(s, s', u)
    {
      BooksStepFor(s, s', q, r, u);
    }
  }

  // ---------------------------------------------------------------- changing one request

  /** A step that changes one request and keeps each part of the invariant keeps the whole. */
  lemma ChangeOne(s: State, s': State, q: Id, r: Request)
    requires Inv(s)
    requires s'.requests == s.requests[q := r] && s'.users == s.users
    requires s'.sessions == s.sessions && s.ledger <= s'.ledger
    requires QueueOk(s') && ActiveOk(s') && AvailableOk(s') && RosterOk(s')
    requires RequestOk(r) && PeopleOk(s.users, r)
    requires q in s.requests ==> Evolves(s.requests[q], r)
    requires forall e :: e in s'.ledger ==> e.user in s'.users
    requires forall u :: u in s.users ==> Booked(s, q, r, s'.ledger, u)
    ensures Inv(s') && Advances(s, s')
  {
    BooksStep(s, s', q, r);
    RequestsStep(s, s', q, r);
  }

  lemma RequestsStep(s: State, s': State, q: Id, r: Request)
    requires RequestsOk(s) && RequestOk(r) && PeopleOk(s.users, r)
    requires s'.requests == s.requests[q := r] && s'.users == s.users
    requires q in s.requests ==> Evolves(s.requests[q], r)
    ensures RequestsOk(s')
    ensures forall p :: p in s.requests ==> p in s'.requests && Evolves(s.requests[p], s'.requests[p])
  {
    forall p | p in s'.requests ensures RequestOk(s'.requests[p]) && PeopleOk(s.users, s'.requests[p]) {
      assert p != q ==> s'.requests[p] == s.requests[p];
    }
    forall p | p in s.requests ensures Evolves(s.requests[p], s'.requests[p]) {
      assert p != q ==> s'.requests[p] == s.requests[p];
    }
  }
}
