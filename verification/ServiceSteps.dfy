/** Every elementary transition of the service keeps the invariant and only lets requests evolve. */
module ServiceSteps {
  import opened Sequences
  import opened Domain
  import opened ServiceSpec
  import opened RequestRules
  import opened ServiceInvariant

  /** `s'` keeps the invariant and continues `s`. */
  ghost predicate Sound(s: State, s': State) {
    Inv(s') && Advances(s, s')
  }

  lemma SoundTransitive(s: State, t: State, u: State)
    requires Sound(s, t) && Sound(t, u)
    ensures Sound(s, u)
  {
    AdvancesTransitive(s, t, u);
  }

  lemma SoundReflexive(s: State)
    requires Inv(s)
    ensures Sound(s, s)
  {
    forall q | q in s.requests ensures Evolves(s.requests[q], s.requests[q]) {
    }
    assert Advances(s, s);
  }

  /** The change from `r` to `r'` moves no points, except that a hold may be released. */
  ghost predicate PointsKept(r: Request, r': Request) {
    forall u :: Earned(r', u) == Earned(r, u) && Slack(r', u) == Slack(r, u) && HeldBy(r', u) <= HeldBy(r, u)
  }

  lemma NothingBooked(s: State, q: Id, r: Request, u: Id)
    requires q in s.requests && PointsKept(s.requests[q], r)
    ensures Booked(s, q, r, s.ledger, u)
  {
    assert Earned(r, u) == Earned(s.requests[q], u);
  }

  /** A step that rewires one request without moving points is sound if the wiring is right again. */
  lemma RewireSound(s: State, s': State, q: Id, r: Request)
    requires Inv(s) && q in s.requests
    requires s' == s.(queue := s'.queue, active := s'.active, available := s'.available, requests := s.requests[q := r])
    requires QueueOk(s') && ActiveOk(s') && AvailableOk(s')
    requires RequestOk(r) && Evolves(s.requests[q], r) && PeopleOk(s.users, r) && PointsKept(s.requests[q], r)
    ensures Sound(s, s')
  {
    assert RosterOk(s');
    forall u | u in s.users ensures Booked(s, q, r, s'.ledger, u) {
      NothingBooked(s, q, r, u);
    }
    ChangeOne(s, s', q, r);
  }

  // ---------------------------------------------------------------- assignment

  lemma AssignedHolder(s: State, q: Id, a: Id)
    requires RosterOk(s) && Compatible(s, q, a)
    ensures MayHold(s.requests[q].ask, ResponderOf(s, a))
  {
    assert SessionOk(s.users, a, s.sessions[a]);
  }

  lemma AssignLists(s: State, i: nat, j: nat, now: int)
    requires QueueOk(s) && AvailableOk(s)
    requires i < |s.queue| && j < |s.available| && Compatible(s, s.queue[i], s.available[j])
    ensures QueueOk(Assign(s, i, j, now)) && AvailableOk(Assign(s, i, j, now))
  {
    RemoveAtMembers(s.queue, i);
    RemoveAtMembers(s.available, j);
  }

  lemma AssignActive(s: State, i: nat, j: nat, now: int)
    requires ActiveOk(s) && QueueOk(s)
    requires i < |s.queue| && j < |s.available| && Compatible(s, s.queue[i], s.available[j])
    ensures ActiveOk(Assign(s, i, j, now))
  {
    var s', q, a := Assign(s, i, j, now), s.queue[i], s.available[j];
    assert s.requests[q].status == Queued;
    forall b | b in s'.active ensures Holds(s', b, s'.active[b]) {
      assert b != a ==> Holds(s, b, s.active[b]);
    }
  }

  lemma AssignRecord(s: State, q: Id, a: Id, now: int)
    requires RosterOk(s) && Compatible(s, q, a) && s.requests[q].status == Queued
    requires RequestOk(s.requests[q]) && PeopleOk(s.users, s.requests[q])
    ensures var r := AssignRequest(s.requests[q], ResponderOf(s, a), now);
            RequestOk(r) && Evolves(s.requests[q], r) && PeopleOk(s.users, r) && PointsKept(s.requests[q], r)
  {
    AssignedHolder(s, q, a);
    AssignKeepsRules(s.requests[q], ResponderOf(s, a), now);
    assert SessionOk(s.users, a, s.sessions[a]);
  }

  lemma AssignSound(s: State, i: nat, j: nat, now: int)
    requires Inv(s)
    requires i < |s.queue| && j < |s.available| && Compatible(s, s.queue[i], s.available[j])
    ensures Sound(s, Assign(s, i, j, now))
  {
    var q, a := s.queue[i], s.available[j];
    AssignLists(s, i, j, now);
    AssignActive(s, i, j, now);
    AssignRecord(s, q, a, now);
    RewireSound(s, Assign(s, i, j, now), q, AssignRequest(s.requests[q], ResponderOf(s, a), now));
  }

  // ---------------------------------------------------------------- back to the queue

  lemma RequeueWiring(s: State, q: Id, now: int)
    requires QueueOk(s) && ActiveOk(s) && AvailableOk(s)
    requires q in s.requests && s.requests[q].status == Assigned
    ensures QueueOk(Requeue(s, q, now)) && ActiveOk(Requeue(s, q, now)) && AvailableOk(Requeue(s, q, now))
  {
    var s' := Requeue(s, q, now);
    forall b | b in s'.active ensures Holds(s', b, s'.active[b]) {
      assert Holds(s, b, s.active[b]);
    }
  }

  lemma RequeueRecord(users: set<Id>, r: Request, now: int)
    requires RequestOk(r) && PeopleOk(users, r) && r.status == Assigned
    ensures var r' := RequeueRequest(r, now);
            RequestOk(r') && Evolves(r, r') && PeopleOk(users, r') && PointsKept(r, r')
  {
    RequeueKeepsRules(r, now);
  }

  lemma RequeueSound(s: State, q: Id, now: int)
    requires Inv(s)
    requires q in s.requests && s.requests[q].status == Assigned
    ensures Sound(s, Requeue(s, q, now))
  {
    RequeueWiring(s, q, now);
    RequeueRecord(s.users, s.requests[q], now);
    RewireSound(s, Requeue(s, q, now), q, RequeueRequest(s.requests[q], now));
  }

  // ---------------------------------------------------------------- abandonment

  lemma AbandonLists(s: State, q: Id, now: int)
    requires QueueOk(s) && AvailableOk(s) && q in s.requests
    ensures QueueOk(Abandon(s, q, now)) && AvailableOk(Abandon(s, q, now))
  {
    WithoutMembers(s.queue, q);
  }

  lemma AbandonActive(s: State, q: Id, now: int)
    requires ActiveOk(s)
    requires q in s.requests && !IsTerminal(s.requests[q].status)
    requires s.requests[q].responder.Nobody? <==> s.requests[q].status == Queued
    ensures ActiveOk(Abandon(s, q, now))
  {
    var s' := Abandon(s, q, now);
    forall b | b in s'.active ensures Holds(s', b, s'.active[b]) {
      assert Holds(s, b, s.active[b]);
    }
  }

  lemma AbandonRecord(users: set<Id>, r: Request, now: int)
    requires RequestOk(r) && PeopleOk(users, r) && !IsTerminal(r.status) && r.fragments == []
    ensures var r' := AbandonRequest(r, now);
            RequestOk(r') && Evolves(r, r') && PeopleOk(users, r') && PointsKept(r, r')
  {
    AbandonKeepsRules(r, now);
  }

  lemma AbandonSound(s: State, q: Id, now: int)
    requires Inv(s)
    requires q in s.requests && !IsTerminal(s.requests[q].status) && s.requests[q].fragments == []
    ensures Sound(s, Abandon(s, q, now))
  {
    AbandonLists(s, q, now);
    AbandonActive(s, q, now);
    AbandonRecord(s.users, s.requests[q], now);
    RewireSound(s, Abandon(s, q, now), q, AbandonRequest(s.requests[q], now));
  }

  // ---------------------------------------------------------------- completion

  /** A step that changes one request and books what it moves is sound if the wiring is right again. */
  lemma BookSound(s: State, s': State, q: Id, r: Request)
    requires Inv(s) && q in s.requests
    requires s' == s.(active := s'.active, requests := s.requests[q := r], ledger := s'.ledger)
    requires QueueOk(s') && ActiveOk(s') && AvailableOk(s')
    requires RequestOk(r) && Evolves(s.requests[q], r) && PeopleOk(s.users, r)
    requires s.ledger <= s'.ledger && forall e :: e in s'.ledger ==> e.user in s.users
    requires forall u :: u in s.users ==> Booked(s, q, r, s'.ledger, u)
    ensures Sound(s, s')
  {
    assert RosterOk(s');
    ChangeOne(s, s', q, r);
  }

  lemma EndActive(s: State, s': State, q: Id)
    requires ActiveOk(s) && q in s.requests && IsHeld(s.requests[q].status) && q in s'.requests && IsTerminal(s'.requests[q].status)
    requires s'.active == Release(s.active, s.requests[q]) && s'.requests == s.requests[q := s'.requests[q]] && s'.sessions == s.sessions
    ensures ActiveOk(s')
  {
    forall b | b in s'.active ensures Holds(s', b, s'.active[b]) {
      assert Holds(s, b, s.active[b]);
    }
  }

  /** Ending a held request frees its responder. */
  lemma EndWiring(s: State, q: Id, r: Request, ledger: seq<Entry>)
    requires QueueOk(s) && ActiveOk(s) && AvailableOk(s)
    requires q in s.requests && IsHeld(s.requests[q].status) && IsTerminal(r.status)
    ensures var s' := s.(active := Release(s.active, s.requests[q]), requests := s.requests[q := r], ledger := ledger);
            QueueOk(s') && ActiveOk(s') && AvailableOk(s')
  {
    EndActive(s, s.(active := Release(s.active, s.requests[q]), requests := s.requests[q := r], ledger := ledger), q);
  }

  /** Where the points of a held request are. */
  lemma HeldPoints(r: Request, u: Id)
    requires Shape(r) && IsHeld(r.status)
    ensures Slack(r, u) == 0
    ensures Earned(r, u) == (if r.charged && !r.ask.guest && r.ask.requester == u then -QUESTION_COST else 0)
    ensures HeldBy(r, u) == (if !r.charged && !r.ask.guest && r.ask.requester == u then QUESTION_COST else 0)
  {
  }

  /** Where the points of a completed request are. */
  lemma CompletedPoints(r: Request, u: Id)
    requires IsTerminal(r.status) && r.completedAt.Some? && r.fragments != []
    ensures HeldBy(r, u) == 0
    ensures Earned(r, u) == (if !r.ask.guest && r.ask.requester == u then -QUESTION_COST else 0)
                            + (if Paid(r) && r.responder.user == u then RewardFor(r.reaction) else 0)
    ensures Slack(r, u) == if Paid(r) && r.responder.user == u then RewardFor(Like) - RewardFor(r.reaction) else 0
  {
  }

  lemma RewardBooked(s: State, q: Id, reason: Reason, now: int, u: Id)
    requires q in s.requests && s.requests[q].status == Streaming && Shape(s.requests[q])
    ensures Booked(s, q, CompleteRequest(s.requests[q], reason, now), Complete(s, q, reason, now).ledger, u)
  {
    var r := s.requests[q];
    HeldPoints(r, u);
    CompletedPoints(CompleteRequest(r, reason, now), u);
    if Paid(r) {
      TotalAppend(s.ledger, Entry(r.responder.user, q, AnswerReward, BASE_ANSWER_REWARD), u);
    }
  }

  lemma CompleteRecord(users: set<Id>, r: Request, reason: Reason, now: int)
    requires RequestOk(r) && PeopleOk(users, r) && r.status == Streaming && (reason == Stop || reason == Partial)
    ensures var r' := CompleteRequest(r, reason, now); RequestOk(r') && Evolves(r, r') && PeopleOk(users, r')
  {
    CompleteKeepsRules(r, reason, now);
  }

  lemma RewardLedger(s: State, q: Id, reason: Reason, now: int)
    requires BooksOk(s) && q in s.requests && PeopleOk(s.users, s.requests[q])
    ensures var ledger := Complete(s, q, reason, now).ledger; s.ledger <= ledger && forall e :: e in ledger ==> e.user in s.users
  {
  }

  lemma CompleteSound(s: State, q: Id, reason: Reason, now: int)
    requires Inv(s) && (reason == Stop || reason == Partial)
    requires q in s.requests && s.requests[q].status == Streaming
    ensures Sound(s, Complete(s, q, reason, now))
  {
    var s', r := Complete(s, q, reason, now), CompleteRequest(s.requests[q], reason, now);
    EndWiring(s, q, r, s'.ledger);
    CompleteRecord(s.users, s.requests[q], reason, now);
    RewardLedger(s, q, reason, now);
    forall u | u in s.users ensures Booked(s, q, r, s'.ledger, u) {
      RewardBooked(s, q, reason, now, u);
    }
    BookSound(s, s', q, r);
  }

  // ---------------------------------------------------------------- fragments and reactions

  /** Changing a record but neither its responder nor whether it is queued, held or ended keeps the wiring. */
  lemma KeepWiring(s: State, q: Id, r: Request, ledger: seq<Entry>)
    requires QueueOk(s) && ActiveOk(s) && AvailableOk(s)
    requires q in s.requests && r.responder == s.requests[q].responder
    requires r.status == s.requests[q].status || (IsHeld(r.status) && IsHeld(s.requests[q].status))
    ensures var s' := s.(requests := s.requests[q := r], ledger := ledger); QueueOk(s') && ActiveOk(s') && AvailableOk(s')
  {
    var s' := s.(requests := s.requests[q := r], ledger := ledger);
    forall b | b in s'.active ensures Holds(s', b, s'.active[b]) {
      assert Holds(s, b, s.active[b]);
    }
  }

  /** What the fragment `f` adds to the ledger when it is the first of its answer. */
  function Charge(s: State, q: Id): seq<Entry>
    requires q in s.requests
  {
    var r := s.requests[q];
    if !r.charged && !r.ask.guest then s.ledger + [Entry(r.ask.requester, q, QuestionCharge, -QUESTION_COST)] else s.ledger
  }

  lemma ChargeBooked(s: State, q: Id, f: Fragment, u: Id)
    requires q in s.requests && IsHeld(s.requests[q].status) && Shape(s.requests[q]) && f.clientSeq > 0
    ensures Booked(s, q, AppendFragment(s.requests[q], f), Charge(s, q), u)
  {
    var r := s.requests[q];
    HeldPoints(r, u);
    AppendShape(r, f);
    HeldPoints(AppendFragment(r, f), u);
    if !r.charged && !r.ask.guest {
      TotalAppend(s.ledger, Entry(r.ask.requester, q, QuestionCharge, -QUESTION_COST), u);
    }
  }

  /** `f` may be appended to the answer of `r`. */
  ghost predicate Fits(r: Request, f: Fragment) {
    && IsHeld(r.status) && r.responder.Responder? && f.session == r.responder.session
    && f.text != "" && f.clientSeq > 0 && SeqKey(f.session, f.clientSeq) !in r.seen
    && |AnswerText(r.fragments)| + |f.text| <= r.ask.limit
  }

  lemma AppendRecord(users: set<Id>, r: Request, f: Fragment)
    requires RequestOk(r) && PeopleOk(users, r) && Fits(r, f)
    requires |AnswerText(r.fragments)| + |f.text| < r.ask.limit
    ensures var r' := AppendFragment(r, f); RequestOk(r') && Evolves(r, r') && PeopleOk(users, r')
  {
    AppendKeepsRules(r, f);
  }

  lemma ChargeLedger(s: State, q: Id)
    requires BooksOk(s) && q in s.requests && PeopleOk(s.users, s.requests[q])
    ensures s.ledger <= Charge(s, q) && forall e :: e in Charge(s, q) ==> e.user in s.users
  {
  }

  lemma AppendSound(s: State, q: Id, f: Fragment)
    requires Inv(s) && q in s.requests && Fits(s.requests[q], f)
    requires |AnswerText(s.requests[q].fragments)| + |f.text| < s.requests[q].ask.limit
    ensures Sound(s, s.(requests := s.requests[q := AppendFragment(s.requests[q], f)], ledger := Charge(s, q)))
  {
    var r := AppendFragment(s.requests[q], f);
    AppendRecord(s.users, s.requests[q], f);
    KeepWiring(s, q, r, Charge(s, q));
    ChargeLedger(s, q);
    forall u | u in s.users ensures Booked(s, q, r, Charge(s, q), u) {
      ChargeBooked(s, q, f, u);
    }
    BookSound(s, s.(requests := s.requests[q := r], ledger := Charge(s, q)), q, r);
  }

  lemma FillRecord(users: set<Id>, r: Request, f: Fragment)
    requires RequestOk(r) && PeopleOk(users, r) && Fits(r, f)
    requires |AnswerText(r.fragments)| + |f.text| == r.ask.limit
    ensures var r' := CompleteRequest(AppendFragment(r, f), Length, f.at);
            RequestOk(r') && Evolves(r, r') && PeopleOk(users, r')
  {
    var r0 := AppendFragment(r, f);
    AppendKeepsRules(r, f);
    CompleteKeepsRules(r0, Length, f.at);
    EvolvesTransitive(r, r0, CompleteRequest(r0, Length, f.at));
  }

  /** The ledger after the fragment that fills the answer: the charge, if it is the first, and the reward. */
  function FillLedger(s: State, q: Id): seq<Entry>
    requires q in s.requests
  {
    var r := s.requests[q];
    if Paid(r) then Charge(s, q) + [Entry(r.responder.user, q, AnswerReward, BASE_ANSWER_REWARD)] else Charge(s, q)
  }

  /** What the charge and the reward add up to for `u`. */
  lemma FillTotals(s: State, q: Id, u: Id)
    requires q in s.requests
    ensures var r := s.requests[q];
            Total(FillLedger(s, q), u) == Total(s.ledger, u)
              - (if !r.charged && !r.ask.guest && r.ask.requester == u then QUESTION_COST else 0)
              + (if Paid(r) && r.responder.user == u then BASE_ANSWER_REWARD else 0)
    ensures Lowered(FillLedger(s, q), u) == Lowered(s.ledger, u)
  {
    var r := s.requests[q];
    TotalAppend(s.ledger, Entry(r.ask.requester, q, QuestionCharge, -QUESTION_COST), u);
    if Paid(r) {
      TotalAppend(Charge(s, q), Entry(r.responder.user, q, AnswerReward, BASE_ANSWER_REWARD), u);
    }
  }

  lemma FillBooked(s: State, q: Id, f: Fragment, u: Id)
    requires q in s.requests && Shape(s.requests[q]) && IsHeld(s.requests[q].status) && f.clientSeq > 0
    ensures Booked(s, q, CompleteRequest(AppendFragment(s.requests[q], f), Length, f.at), FillLedger(s, q), u)
  {
    HeldPoints(s.requests[q], u);
    FillPoints(s.requests[q], f, u);
    FillTotals(s, q, u);
    NothingLost(s, q, CompleteRequest(AppendFragment(s.requests[q], f), Length, f.at), FillLedger(s, q), u);
  }

  /** A change that is booked as it should be and leaves `u` no less to spend. */
  lemma NothingLost(s: State, q: Id, r: Request, ledger: seq<Entry>, u: Id)
    requires Total(ledger, u) - Total(s.ledger, u) == Earned(r, u) - EarnedBefore(s, q, u)
    requires Total(ledger, u) - HeldBy(r, u) >= Total(s.ledger, u) - HeldBefore(s, q, u)
    requires Slack(r, u) >= SlackBefore(s, q, u) && Lowered(ledger, u) == Lowered(s.ledger, u)
    ensures Booked(s, q, r, ledger, u)
  {
  }

  /** Where the points are when the answer is full. */
  lemma FillPoints(r: Request, f: Fragment, u: Id)
    requires Shape(r) && IsHeld(r.status) && f.clientSeq > 0
    ensures var full := CompleteRequest(AppendFragment(r, f), Length, f.at);
            var asked, answered := !r.ask.guest && r.ask.requester == u, Paid(r) && r.responder.user == u;
            && HeldBy(full, u) == 0
            && Earned(full, u) == (if asked then -QUESTION_COST else 0) + (if answered then BASE_ANSWER_REWARD else 0)
            && Slack(full, u) == if answered then BASE_ANSWER_REWARD else 0
  {
    CompletedPoints(CompleteRequest(AppendFragment(r, f), Length, f.at), u);
  }

  /** Where the fragment that fills the answer leads. */
  function Filled(s: State, q: Id, f: Fragment): State
    requires q in s.requests && f.clientSeq > 0
  {
    s.(active := Release(s.active, s.requests[q]), ledger := FillLedger(s, q),
       requests := s.requests[q := CompleteRequest(AppendFragment(s.requests[q], f), Length, f.at)])
  }

  lemma FilledLedger(s: State, q: Id)
    requires BooksOk(s) && q in s.requests && PeopleOk(s.users, s.requests[q])
    ensures s.ledger <= FillLedger(s, q) && forall e :: e in FillLedger(s, q) ==> e.user in s.users
  {
  }

  lemma FillSound(s: State, q: Id, f: Fragment)
    requires Inv(s) && q in s.requests && Fits(s.requests[q], f)
    requires |AnswerText(s.requests[q].fragments)| + |f.text| == s.requests[q].ask.limit
    ensures Sound(s, Filled(s, q, f))
  {
    var r := CompleteRequest(AppendFragment(s.requests[q], f), Length, f.at);
    FillRecord(s.users, s.requests[q], f);
    EndWiring(s, q, r, FillLedger(s, q));
    forall u | u in s.users ensures Booked(s, q, r, FillLedger(s, q), u) {
      FillBooked(s, q, f, u);
    }
    FilledLedger(s, q);
    BookSound(s, Filled(s, q, f), q, r);
  }

  lemma CommitIs(s: State, q: Id, f: Fragment)
    requires q in s.requests && Fits(s.requests[q], f)
    ensures Commit(s, q, f) ==
            if |AnswerText(s.requests[q].fragments)| + |f.text| == s.requests[q].ask.limit then Filled(s, q, f)
            else s.(requests := s.requests[q := AppendFragment(s.requests[q], f)], ledger := Charge(s, q))
  {
    var r := AppendFragment(s.requests[q], f);
    AnswerAppend(s.requests[q].fragments, f);
    if |AnswerText(r.fragments)| >= r.ask.limit {
      assert EarnsReward(r) == Paid(s.requests[q]);
      var r' := CompleteRequest(r, Length, f.at);
      assert s.requests[q := r][q := r'] == s.requests[q := r'];
    }
  }

  lemma CommitSound(s: State, q: Id, f: Fragment)
    requires Inv(s) && q in s.requests && Fits(s.requests[q], f)
    ensures Sound(s, Commit(s, q, f))
  {
    CommitIs(s, q, f);
    if |AnswerText(s.requests[q].fragments)| + |f.text| == s.requests[q].ask.limit {
      FillSound(s, q, f);
    } else {
      AppendSound(s, q, f);
    }
  }

  /** An adjustment of a reward that is booked in full. */
  lemma AdjustmentBooked(s: State, q: Id, r: Request, user: Id, delta: int, u: Id)
    requires q in s.requests && HeldBy(r, u) == HeldBy(s.requests[q], u)
    requires Earned(r, u) == Earned(s.requests[q], u) + (if user == u then delta else 0)
    requires Slack(r, u) == Slack(s.requests[q], u) - (if user == u then delta else 0)
    ensures Booked(s, q, r, s.ledger + [Entry(user, q, ReactionAdjustment, delta)], u)
  {
    TotalAppend(s.ledger, Entry(user, q, ReactionAdjustment, delta), u);
  }

  lemma ReactionBooked(s: State, q: Id, reaction: Reaction, u: Id)
    requires q in s.requests && s.requests[q].completedAt.Some? && Shape(s.requests[q])
    ensures Booked(s, q, s.requests[q].(reaction := reaction), ApplyReaction(s, q, reaction).ledger, u)
  {
    var r := s.requests[q];
    var r' := r.(reaction := reaction);
    ReactionPoints(r, reaction, u);
    if Paid(r) && RewardFor(reaction) != RewardFor(r.reaction) {
      AdjustmentBooked(s, q, r', r.responder.user, RewardFor(reaction) - RewardFor(r.reaction), u);
    }
  }

  lemma ReactionPoints(r: Request, reaction: Reaction, u: Id)
    requires r.completedAt.Some? && Shape(r)
    ensures var r' := r.(reaction := reaction);
            var delta := if Paid(r) && r.responder.user == u then RewardFor(reaction) - RewardFor(r.reaction) else 0;
            HeldBy(r', u) == HeldBy(r, u) && Earned(r', u) == Earned(r, u) + delta && Slack(r', u) == Slack(r, u) - delta
  {
  }

  lemma ReactionSound(s: State, q: Id, reaction: Reaction)
    requires Inv(s) && q in s.requests && s.requests[q].completedAt.Some? && reaction != Unknown
    ensures Sound(s, ApplyReaction(s, q, reaction))
  {
    var s', r := ApplyReaction(s, q, reaction), s.requests[q].(reaction := reaction);
    ReactionKeepsRules(s.requests[q], reaction);
    KeepWiring(s, q, r, s'.ledger);
    forall u | u in s.users ensures Booked(s, q, r, s'.ledger, u) {
      ReactionBooked(s, q, reaction, u);
    }
    BookSound(s, s', q, r);
  }
}
