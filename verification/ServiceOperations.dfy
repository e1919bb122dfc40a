/** Every operation of the service keeps the invariant. */
module ServiceOperations {
  import opened Sequences
  import opened Domain
  import opened Sums
  import opened ServiceSpec
  import opened RequestRules
  import opened ServiceInvariant
  import opened ServiceSteps
  import Matching

  // ---------------------------------------------------------------- sessions and rosters

  /** Steps that only touch sessions, inboxes, preferences or the available list. */
  lemma RosterSound(s: State, s': State)
    requires Inv(s)
    requires s' == s.(tokens := s'.tokens, sessions := s'.sessions, responders := s'.responders,
                      acceptAi := s'.acceptAi, available := s'.available)
    requires RosterOk(s') && AvailableOk(s')
    requires forall id :: id in s.sessions ==> id in s'.sessions && s'.sessions[id] == s.sessions[id]
    ensures Sound(s, s')
  {
    SameBooks(s, s');
    assert QueueOk(s');
    MoreSessions(s, s');
  }

  /** Where requests, ledger and accounts are the same, so are the books. */
  lemma SameBooks(s: State, s': State)
    requires Inv(s) && s'.requests == s.requests && s'.ledger == s.ledger && s'.users == s.users
    requires forall id :: id in s.sessions ==> id in s'.sessions && s'.sessions[id] == s.sessions[id]
    ensures RequestsOk(s') && BooksOk(s') && Solvent(s') && Advances(s, s')
  {
    SoundReflexive(s);
    forall u | u in s.users ensures Spendable(s', u) == Spendable(s, u) && AffordsFor(s, s', u) {
    }
  }

  lemma MoreSessions(s: State, s': State)
    requires ActiveOk(s) && s'.active == s.active && s'.requests == s.requests
    requires forall id :: id in s.sessions ==> id in s'.sessions
    ensures ActiveOk(s')
  {
    forall b | b in s'.active ensures Holds(s', b, s'.active[b]) {
      assert Holds(s, b, s.active[b]);
    }
  }

  lemma AddSessionSound(s: State, token: Id, id: Id, session: Session)
    requires Inv(s) && FreshSession(s, token, id) && SessionOk(s.users, id, session)
    ensures Sound(s, AddSession(s, token, id, session))
  {
    RosterSound(s, AddSession(s, token, id, session));
  }

  lemma {:induction false} StrangerHasNothing(ledger: seq<Entry>, u: Id)
    requires forall e :: e in ledger ==> e.user != u
    ensures Total(ledger, u) == 0
  {
    if ledger != [] {
      var n := |ledger| - 1;
      assert ledger[n] in ledger;
      StrangerHasNothing(ledger[..n], u);
    }
  }

  lemma StrangerInRequest(users: set<Id>, r: Request, u: Id)
    requires PeopleOk(users, r) && u !in users && u != ""
    ensures HeldBy(r, u) == 0 && Earned(r, u) == 0 && Slack(r, u) == 0
  {
  }

  /** The ledger and holds of a brand-new account. */
  lemma NewAccount(s: State, u: Id)
    requires Inv(s) && u !in s.users && u != ""
    ensures Total(s.ledger, u) == 0 && Held(s.requests, u) == 0
    ensures Sum(s.requests, EarnedFor(u)) == 0 && Sum(s.requests, SlackFor(u)) == 0
  {
    StrangerHasNothing(s.ledger, u);
    forall q | q in s.requests
      ensures HeldBy(s.requests[q], u) == 0 && Earned(s.requests[q], u) == 0 && Slack(s.requests[q], u) == 0
    {
      StrangerInRequest(s.users, s.requests[q], u);
    }
    SumZero(s.requests, HeldFor(u));
    SumZero(s.requests, EarnedFor(u));
    SumZero(s.requests, SlackFor(u));
  }

  /** Opening an account books the signup grant. */
  function OpenAccount(s: State, user: Id): State {
    s.(users := s.users + {user}, ledger := s.ledger + [Entry(user, "", SignupGrant, SIGNUP_GRANT)])
  }

  lemma OldAccount(s: State, user: Id, u: Id)
    requires BooksOk(s) && Solvent(s) && u in s.users && u != user
    ensures var s' := OpenAccount(s, user);
            && Total(s'.ledger, u) == SIGNUP_GRANT + Sum(s'.requests, EarnedFor(u))
            && Spendable(s', u) + Sum(s'.requests, SlackFor(u)) >= 0
            && Spendable(s', u) + Lowered(s'.ledger, u) >= 0
  {
    TotalAppend(s.ledger, Entry(user, "", SignupGrant, SIGNUP_GRANT), u);
  }

  lemma NewAccountBooks(s: State, u: Id)
    requires Inv(s) && u != "" && u !in s.users
    ensures var s' := OpenAccount(s, u);
            && Total(s'.ledger, u) == SIGNUP_GRANT + Sum(s'.requests, EarnedFor(u))
            && Spendable(s', u) + Sum(s'.requests, SlackFor(u)) >= 0
            && Spendable(s', u) + Lowered(s'.ledger, u) >= 0
  {
    NewAccount(s, u);
    TotalAppend(s.ledger, Entry(u, "", SignupGrant, SIGNUP_GRANT), u);
    LoweredNonNegative(s.ledger, u);
  }

  lemma OpenAccountBooks(s: State, user: Id)
    requires Inv(s) && user != "" && user !in s.users
    ensures BooksOk(OpenAccount(s, user)) && Solvent(OpenAccount(s, user))
  {
    var s' := OpenAccount(s, user);
    NewAccountBooks(s, user);
    forall u | u in s'.users
      ensures Total(s'.ledger, u) == SIGNUP_GRANT + Sum(s'.requests, EarnedFor(u))
      ensures Spendable(s', u) + Sum(s'.requests, SlackFor(u)) >= 0
      ensures Spendable(s', u) + Lowered(s'.ledger, u) >= 0
    {
      if u != user {
        OldAccount(s, user, u);
      }
    }
  }

  lemma RegisterSound(s: State, user: Id, token: Id, id: Id)
    requires Inv(s) && user != "" && user !in s.users && FreshSession(s, token, id)
    ensures Sound(s, Register(s, user, token, id))
  {
    var s' := OpenAccount(s, user);
    OpenAccountSound(s, user);
    AddSessionSound(s', token, id, Session(user, false, Human));
    AdvancesTransitive(s, s', Register(s, user, token, id));
  }

  lemma OpenAccountAffords(s: State, user: Id)
    requires user !in s.users
    ensures Affords(s, OpenAccount(s, user))
  {
    forall u | u in s.users ensures AffordsFor(s, OpenAccount(s, user), u) {
      TotalAppend(s.ledger, Entry(user, "", SignupGrant, SIGNUP_GRANT), u);
    }
  }

  lemma OpenAccountPeople(s: State, user: Id)
    requires RosterOk(s) && RequestsOk(s) && user != ""
    ensures RosterOk(OpenAccount(s, user)) && RequestsOk(OpenAccount(s, user))
  {
    var s' := OpenAccount(s, user);
    forall k | k in s'.sessions ensures SessionOk(s'.users, k, s'.sessions[k]) {
      assert SessionOk(s.users, k, s.sessions[k]);
    }
    forall q | q in s'.requests ensures RequestOk(s'.requests[q]) && PeopleOk(s'.users, s'.requests[q]) {
      assert PeopleOk(s.users, s.requests[q]);
    }
  }

  lemma OpenAccountWiring(s: State, user: Id)
    requires QueueOk(s) && ActiveOk(s) && AvailableOk(s)
    ensures QueueOk(OpenAccount(s, user)) && ActiveOk(OpenAccount(s, user)) && AvailableOk(OpenAccount(s, user))
  {
    MoreSessions(s, OpenAccount(s, user));
  }

  lemma OpenAccountSound(s: State, user: Id)
    requires Inv(s) && user != "" && user !in s.users
    ensures Sound(s, OpenAccount(s, user))
  {
    SoundReflexive(s);
    OpenAccountBooks(s, user);
    OpenAccountPeople(s, user);
    OpenAccountWiring(s, user);
    OpenAccountAffords(s, user);
  }

  // ---------------------------------------------------------------- matching pass

  lemma InboxSound(s: State, a: Id, inbox: seq<Id>)
    requires Inv(s) && a in s.responders && |inbox| <= INBOX_CAPACITY
    ensures Sound(s, s.(responders := s.responders[a := inbox]))
  {
    RosterSound(s, s.(responders := s.responders[a := inbox]));
  }

  lemma DeliverSound(s: State, q: Id, a: Id, now: int)
    requires Inv(s) && q in s.requests && s.requests[q].status == Assigned && a in s.responders
    ensures Sound(s, Deliver(s, q, a, now))
  {
    if |s.responders[a]| < INBOX_CAPACITY {
      assert Deliver(s, q, a, now) == s.(responders := s.responders[a := s.responders[a] + [q]]);
      InboxSound(s, a, s.responders[a] + [q]);
    } else {
      assert Deliver(s, q, a, now) == Requeue(s, q, now);
      RequeueSound(s, q, now);
    }
  }

  lemma AssignNextSound(s: State, i: nat, j: nat, now: int)
    requires Inv(s)
    requires i < |s.queue| && j < |s.available| && Compatible(s, s.queue[i], s.available[j])
    ensures Sound(s, AssignNext(s, i, j, now))
  {
    AssignSound(s, i, j, now);
    DeliverSound(Assign(s, i, j, now), s.queue[i], s.available[j], now);
    SoundTransitive(s, Assign(s, i, j, now), AssignNext(s, i, j, now));
  }

  lemma {:induction false} TryAssignSound(s: State, now: int)
    requires Inv(s)
    ensures Sound(s, TryAssign(s, now))
    decreases |s.available|
  {
    if Matching.MemoryNext(s.queue, s.available, CompatibleIn(s)).None? {
      SoundReflexive(s);
    } else {
      var t := FirstAssigned(s, now);
      TryAssignSound(t, now);
      SoundTransitive(s, t, TryAssign(t, now));
    }
  }

  /** The state after the first pair is handed out. */
  lemma FirstAssigned(s: State, now: int) returns (t: State)
    requires Inv(s) && Matching.MemoryNext(s.queue, s.available, CompatibleIn(s)).Some?
    ensures Sound(s, t) && |t.available| < |s.available| && TryAssign(s, now) == TryAssign(t, now)
  {
    var i, j := NextPair(s, now);
    t := AssignNext(s, i, j, now);
    AssignNextSound(s, i, j, now);
  }

  lemma NextPair(s: State, now: int) returns (i: nat, j: nat)
    requires Matching.MemoryNext(s.queue, s.available, CompatibleIn(s)).Some?
    ensures i < |s.queue| && j < |s.available| && Compatible(s, s.queue[i], s.available[j])
    ensures TryAssign(s, now) == TryAssign(AssignNext(s, i, j, now), now) && |AssignNext(s, i, j, now).available| < |s.available|
  {
    i, j := Matching.MemoryNext(s.queue, s.available, CompatibleIn(s)).value.0, Matching.MemoryNext(s.queue, s.available, CompatibleIn(s)).value.1;
    TryAssignIs(s, now);
  }

  /** One round of the matching pass. */
  lemma TryAssignIs(s: State, now: int)
    ensures var next := Matching.MemoryNext(s.queue, s.available, CompatibleIn(s));
            TryAssign(s, now) == if next.None? then s else TryAssign(AssignNext(s, next.value.0, next.value.1, now), now)
  {
  }

  lemma {:induction false} TryAssignQuiescent(s: State, now: int)
    ensures Quiescent(TryAssign(s, now))
    decreases |s.available|
  {
    match Matching.MemoryNext(s.queue, s.available, CompatibleIn(s))
    case None =>
    case Some((i, j)) =>
      TryAssignQuiescent(AssignNext(s, i, j, now), now);
  }

  // ---------------------------------------------------------------- creation

  lemma NewRequestBooked(s: State, q: Id, r: Request, u: Id)
    requires q !in s.requests && Shape(r) && r.status == Queued
    requires !r.ask.guest ==> Spendable(s, r.ask.requester) >= QUESTION_COST
    ensures Booked(s, q, r, s.ledger, u)
  {
  }

  lemma NewRecord(users: set<Id>, id: Id, session: Session, allowAi: bool, preferred: Id, messages: seq<Message>, maxOutput: int, now: int)
    requires SessionOk(users, id, session)
    requires preferred != "" ==> KindOrHuman(session.kind) == AiPersona && !allowAi
    ensures var r := NewRequest(id, session, allowAi, preferred, messages, maxOutput, now);
            RequestOk(r) && PeopleOk(users, r) && r.status == Queued
  {
  }

  lemma EnqueueWiring(s: State, q: Id, r: Request)
    requires QueueOk(s) && ActiveOk(s) && AvailableOk(s) && q !in s.requests && r.status == Queued
    ensures var s' := s.(requests := s.requests[q := r], queue := s.queue + [q]); QueueOk(s') && ActiveOk(s') && AvailableOk(s')
  {
    var s' := s.(requests := s.requests[q := r], queue := s.queue + [q]);
    forall b | b in s'.active ensures Holds(s', b, s'.active[b]) {
      assert Holds(s, b, s.active[b]);
    }
  }

  lemma EnqueueSound(s: State, q: Id, r: Request)
    requires Inv(s) && q !in s.requests && RequestOk(r) && PeopleOk(s.users, r) && r.status == Queued
    requires !r.ask.guest ==> BalanceOf(s, r.ask.requester).available >= QUESTION_COST
    ensures Sound(s, s.(requests := s.requests[q := r], queue := s.queue + [q]))
  {
    var s' := s.(requests := s.requests[q := r], queue := s.queue + [q]);
    EnqueueWiring(s, q, r);
    assert RosterOk(s');
    forall u | u in s.users ensures Booked(s, q, r, s'.ledger, u) {
      NewRequestBooked(s, q, r, u);
    }
    ChangeOne(s, s', q, r);
  }

  lemma CreateSound(s: State, token: Id, q: Id, messages: seq<Message>, maxOutput: int, allowAi: bool, preferred: Id, now: int)
    requires Inv(s) && q !in s.requests && (preferred != "" ==> !allowAi)
    ensures Sound(s, CreateRequest(s, token, q, messages, maxOutput, allowAi, preferred, now).0)
  {
    var (s', result) := CreateRequest(s, token, q, messages, maxOutput, allowAi, preferred, now);
    SoundReflexive(s);
    if result.Ok? {
      var id := SessionOf(s, token).value;
      var r := NewRequest(id, s.sessions[id], allowAi, preferred, messages, maxOutput, now);
      var t := s.(requests := s.requests[q := r], queue := s.queue + [q]);
      NewRecord(s.users, id, s.sessions[id], allowAi, preferred, messages, maxOutput, now);
      EnqueueSound(s, q, r);
      TryAssignSound(t, now);
      SoundTransitive(s, t, s');
    }
  }

  // ---------------------------------------------------------------- responders

  lemma RegisterResponderSound(s: State, token: Id)
    requires Inv(s)
    ensures Sound(s, RegisterResponder(s, token).0)
  {
    SoundReflexive(s);
    if SessionOf(s, token).Some? {
      RosterSound(s, RegisterResponder(s, token).0);
    }
  }

  lemma ReceiveAssignmentSound(s: State, a: Id)
    requires Inv(s)
    ensures Sound(s, ReceiveAssignment(s, a))
  {
    SoundReflexive(s);
    if a in s.responders && s.responders[a] != [] {
      InboxSound(s, a, s.responders[a][1..]);
    }
  }

  lemma ListedSound(s: State, a: Id)
    requires Inv(s) && a in s.responders && a !in s.active
    ensures Sound(s, if a in s.available then s else s.(available := s.available + [a]))
  {
    if a in s.available {
      SoundReflexive(s);
    } else {
      RosterSound(s, s.(available := s.available + [a]));
    }
  }

  lemma OfferSound(s: State, a: Id, now: int)
    requires Inv(s) && a in s.responders
    ensures Sound(s, Offer(s, a, now))
  {
    if a in s.active {
      SoundReflexive(s);
    } else {
      var t := if a in s.available then s else s.(available := s.available + [a]);
      ListedSound(s, a);
      TryAssignSound(t, now);
      SoundTransitive(s, t, TryAssign(t, now));
    }
  }

  lemma MarkAvailableSound(s: State, a: Id, acceptAi: bool, now: int)
    requires Inv(s)
    ensures Sound(s, MarkAvailable(s, a, acceptAi, now).0)
  {
    SoundReflexive(s);
    if a in s.responders {
      var t := s.(acceptAi := s.acceptAi[a := acceptAi]);
      RosterSound(s, t);
      OfferSound(t, a, now);
      SoundTransitive(s, t, Offer(t, a, now));
    }
  }

  lemma DisconnectSound(s: State, a: Id)
    requires Inv(s)
    ensures Sound(s, Disconnect(s, a))
  {
    WithoutMembers(s.available, a);
    RosterSound(s, Disconnect(s, a));
  }

  lemma GiveUpSound(s: State, q: Id, now: int)
    requires Inv(s) && q in s.requests && s.requests[q].status == Assigned
    ensures Sound(s, GiveUp(s, q, now))
  {
    if s.requests[q].ask.preferred != "" {
      AbandonSound(s, q, now);
    } else {
      RequeueSound(s, q, now);
    }
  }

  /** What the active map and the record of a held request say about each other. */
  lemma HeldRequest(s: State, a: Id)
    requires Inv(s) && a in s.active
    ensures var q := s.active[a];
            && q in s.requests && IsHeld(s.requests[q].status) && RequestOk(s.requests[q])
            && s.requests[q].responder.Responder? && s.requests[q].responder.session == a
            && (s.requests[q].status == Assigned <==> s.requests[q].fragments == [])
  {
    assert Holds(s, a, s.active[a]);
  }

  lemma UnregisterSound(s: State, a: Id, now: int)
    requires Inv(s)
    ensures Sound(s, UnregisterResponder(s, a, now))
  {
    DisconnectSound(s, a);
    if a in s.active {
      HeldRequest(s, a);
      UnregisterIs(s, a, now);
      LetGoSound(Disconnect(s, a), s.active[a], now);
      SoundTransitive(s, Disconnect(s, a), LetGo(Disconnect(s, a), s.active[a], now));
    }
  }

  lemma UnregisterIs(s: State, a: Id, now: int)
    requires a in s.active && s.active[a] in s.requests && !IsTerminal(s.requests[s.active[a]].status)
    ensures UnregisterResponder(s, a, now) == LetGo(Disconnect(s, a), s.active[a], now)
  {
  }

  /** What becomes of a request whose responder goes away. */
  function LetGo(s: State, q: Id, now: int): State
    requires q in s.requests
  {
    if s.requests[q].fragments == [] then GiveUp(s, q, now) else Complete(s, q, Partial, now)
  }

  lemma LetGoSound(s: State, q: Id, now: int)
    requires Inv(s) && q in s.requests && IsHeld(s.requests[q].status)
    ensures Sound(s, LetGo(s, q, now))
  {
    assert RequestOk(s.requests[q]);
    if s.requests[q].fragments == [] {
      GiveUpSound(s, q, now);
    } else {
      CompleteSound(s, q, Partial, now);
    }
  }

  lemma FallbackWiring(s: State, q: Id, now: int)
    requires QueueOk(s) && ActiveOk(s) && AvailableOk(s) && RosterOk(s) && FallbackMayTake(s, q)
    ensures var s' := AcquireFallback(s, q, now).0; QueueOk(s') && ActiveOk(s') && AvailableOk(s')
  {
    WithoutMembers(s.queue, q);
    FallbackIsFree(s, q);
    FallbackActive(s, q, now);
  }

  lemma FallbackActive(s: State, q: Id, now: int)
    requires ActiveOk(s) && FallbackMayTake(s, q) && FallbackSession(q) !in s.active
    ensures ActiveOk(AcquireFallback(s, q, now).0)
  {
    var s' := AcquireFallback(s, q, now).0;
    forall b | b in s'.active ensures Holds(s', b, s'.active[b]) {
      assert b != FallbackSession(q) ==> Holds(s, b, s.active[b]);
    }
  }

  /** The fallback session of a queued request is unknown and holds nothing. */
  lemma FallbackIsFree(s: State, q: Id)
    requires ActiveOk(s) && RosterOk(s) && q in s.requests && s.requests[q].status == Queued
    ensures FallbackSession(q) !in s.active && FallbackSession(q) !in s.sessions
  {
    var a := FallbackSession(q);
    FallbackIsNoSession(s, q);
    forall b | b in s.active ensures b != a {
      assert Holds(s, b, s.active[b]);
      assert FallbackSession(s.active[b])[9..] == s.active[b] && a[9..] == q;
    }
  }

  lemma FallbackRecord(users: set<Id>, q: Id, r: Request, now: int)
    requires RequestOk(r) && PeopleOk(users, r) && r.status == Queued && r.ask.allowAi && r.ask.preferred == ""
    ensures var r' := AssignRequest(r, Responder(FallbackSession(q), "", true, Fallback), now);
            RequestOk(r') && Evolves(r, r') && PeopleOk(users, r') && PointsKept(r, r')
  {
    AssignKeepsRules(r, Responder(FallbackSession(q), "", true, Fallback), now);
  }

  lemma FallbackSound(s: State, q: Id, now: int)
    requires Inv(s)
    ensures Sound(s, AcquireFallback(s, q, now).0)
  {
    SoundReflexive(s);
    if FallbackMayTake(s, q) {
      FallbackWiring(s, q, now);
      FallbackRecord(s.users, q, s.requests[q], now);
      RewireSound(s, AcquireFallback(s, q, now).0, q,
                  AssignRequest(s.requests[q], Responder(FallbackSession(q), "", true, Fallback), now));
    }
  }

  lemma FallbackIsNoSession(s: State, q: Id)
    requires RosterOk(s)
    ensures FallbackSession(q) !in s.sessions
  {
    forall id | id in s.sessions ensures id[0] == 's' {
      assert SessionOk(s.users, id, s.sessions[id]);
      assert "ses_"[0] == id[0];
    }
    assert FallbackSession(q)[0] == 'f';
  }

  // ---------------------------------------------------------------- answering

  /** The submission is stored: it is new and fits the active request of `a`. */
  predicate Accepts(s: State, a: Id, clientSeq: int, text: string) {
    && clientSeq > 0 && text != "" && a in s.active && s.active[a] in s.requests
    && !IsTerminal(s.requests[s.active[a]].status)
    && SeqKey(a, clientSeq) !in s.requests[s.active[a]].seen
    && |AnswerText(s.requests[s.active[a]].fragments)| + |text| <= s.requests[s.active[a]].ask.limit
  }

  /** A submission that is not accepted, a retry included, changes nothing at all. */
  lemma SubmitIs(s: State, a: Id, clientSeq: int, text: string, fragment: Id, now: int)
    ensures SubmitFragment(s, a, clientSeq, text, fragment, now).0 ==
            if Accepts(s, a, clientSeq, text) then Commit(s, s.active[a], Fragment(fragment, a, clientSeq, text, now)) else s
  {
  }

  lemma SubmitSound(s: State, a: Id, clientSeq: int, text: string, fragment: Id, now: int)
    requires Inv(s)
    ensures Sound(s, SubmitFragment(s, a, clientSeq, text, fragment, now).0)
  {
    SubmitIs(s, a, clientSeq, text, fragment, now);
    if Accepts(s, a, clientSeq, text) {
      HeldRequest(s, a);
      CommitSound(s, s.active[a], Fragment(fragment, a, clientSeq, text, now));
    } else {
      SoundReflexive(s);
    }
  }

  lemma FinishSound(s: State, a: Id, now: int)
    requires Inv(s)
    ensures Sound(s, Finish(s, a, now).0)
  {
    SoundReflexive(s);
    if a in s.active {
      HeldRequest(s, a);
      if s.requests[s.active[a]].fragments != [] {
        CompleteSound(s, s.active[a], Stop, now);
      }
    }
  }

  lemma SkipSound(s: State, a: Id, now: int)
    requires Inv(s)
    ensures Sound(s, Skip(s, a, now).0)
  {
    SoundReflexive(s);
    if a in s.active {
      var q := s.active[a];
      HeldRequest(s, a);
      if s.requests[q].fragments == [] {
        if s.requests[q].ask.preferred != "" || s.requests[q].ask.kind == AiPersona {
          AbandonSound(s, q, now);
        } else {
          RequeueSound(s, q, now);
          TryAssignSound(Requeue(s, q, now), now);
          SoundTransitive(s, Requeue(s, q, now), Skip(s, a, now).0);
        }
      }
    }
  }

  lemma CancelSound(s: State, q: Id, now: int)
    requires Inv(s)
    ensures Sound(s, Cancel(s, q, now).0)
  {
    SoundReflexive(s);
    if Cancel(s, q, now).1 {
      AbandonSound(s, q, now);
    }
  }

  lemma ReactSound(s: State, token: Id, q: Id, reaction: Reaction, now: int)
    requires Inv(s)
    ensures Sound(s, React(s, token, q, reaction, now).0)
  {
    SoundReflexive(s);
    if React(s, token, q, reaction, now).1.Ok? {
      ReactionSound(s, q, reaction);
    }
  }

  // ---------------------------------------------------------------- timeouts

  lemma SweepOneSound(s: State, q: Id, now: int, assignedTimeout: int, streamingTimeout: int)
    requires Inv(s)
    ensures Sound(s, SweepOne(s, q, now, assignedTimeout, streamingTimeout).0)
  {
    SoundReflexive(s);
    if q in s.requests {
      if AssignmentExpired(s.requests[q], now, assignedTimeout) {
        GiveUpSound(s, q, now);
      } else if StreamExpired(s.requests[q], now, streamingTimeout) {
        CompleteSound(s, q, Partial, now);
      }
    }
  }

  lemma {:induction false} SweepAllSound(s: State, order: seq<Id>, now: int, assignedTimeout: int, streamingTimeout: int)
    requires Inv(s)
    ensures Sound(s, SweepAll(s, order, now, assignedTimeout, streamingTimeout).0)
    decreases |order|
  {
    if order == [] {
      SoundReflexive(s);
    } else {
      var n := |order| - 1;
      var t := SweepAll(s, order[..n], now, assignedTimeout, streamingTimeout).0;
      SweepAllSound(s, order[..n], now, assignedTimeout, streamingTimeout);
      SweepOneSound(t, order[n], now, assignedTimeout, streamingTimeout);
      SoundTransitive(s, t, SweepOne(t, order[n], now, assignedTimeout, streamingTimeout).0);
    }
  }

  lemma SweepSound(s: State, order: seq<Id>, now: int, assignedTimeout: int, streamingTimeout: int)
    requires Inv(s)
    ensures Sound(s, SweepTimeouts(s, order, now, assignedTimeout, streamingTimeout))
  {
    var t := SweepAll(s, order, now, assignedTimeout, streamingTimeout).0;
    SweepAllSound(s, order, now, assignedTimeout, streamingTimeout);
    TryAssignSound(t, now);
    SoundTransitive(s, t, TryAssign(t, now));
  }

  // ---------------------------------------------------------------- subscribers

  lemma SubscribersRecord(users: set<Id>, r: Request, subscribers: map<Id, Subscriber>)
    requires RequestOk(r) && PeopleOk(users, r)
    requires forall k :: k in subscribers ==> SubscriberOk(r, subscribers[k])
    ensures var r' := r.(subscribers := subscribers); RequestOk(r') && Evolves(r, r') && PeopleOk(users, r') && PointsKept(r, r')
  {
    SubscribersKeepRules(r, subscribers);
  }

  lemma SubscribersSound(s: State, q: Id, subscribers: map<Id, Subscriber>)
    requires Inv(s) && q in s.requests
    requires forall k :: k in subscribers ==> SubscriberOk(s.requests[q], subscribers[k])
    ensures Sound(s, s.(requests := s.requests[q := s.requests[q].(subscribers := subscribers)]))
  {
    var r := s.requests[q].(subscribers := subscribers);
    SubscribersRecord(s.users, s.requests[q], subscribers);
    KeepWiring(s, q, r, s.ledger);
    RewireSound(s, s.(requests := s.requests[q := r], ledger := s.ledger), q, r);
  }

  /** A new subscriber is served the answer so far in full. */
  lemma ReplayServes(r: Request)
    requires Shape(r)
    ensures SubscriberOk(r, Subscriber(Replay(r), |Replay(r)|, false, IsTerminal(r.status)))
  {
    var answer, log := AnswerText(r.fragments), Replay(r);
    if answer != "" {
      LogAppend([], Text(answer));
      assert [] + [Text(answer)] == [Text(answer)];
    }
    if IsTerminal(r.status) {
      var text := if answer != "" then [Text(answer)] else [];
      LogAppend(text, Done(r.finish));
      assert log[..|text|] == text;
    }
  }

  lemma SubscribeSound(s: State, q: Id, sub: Id)
    requires Inv(s)
    ensures Sound(s, Subscribe(s, q, sub).0)
  {
    SoundReflexive(s);
    if q in s.requests {
      assert RequestOk(s.requests[q]);
      NewSubscriberSound(s, q, sub);
    }
  }

  lemma NewSubscriberSound(s: State, q: Id, sub: Id)
    requires Inv(s) && q in s.requests && Shape(s.requests[q]) && StreamsOk(s.requests[q])
    ensures Sound(s, Subscribe(s, q, sub).0)
  {
    var r := s.requests[q];
    ReplayServes(r);
    SubscribersSound(s, q, r.subscribers[sub := Subscriber(Replay(r), |Replay(r)|, false, IsTerminal(r.status))]);
  }

  lemma UnsubscribeSound(s: State, q: Id, sub: Id)
    requires Inv(s)
    ensures Sound(s, Unsubscribe(s, q, sub))
  {
    SoundReflexive(s);
    if q in s.requests {
      assert RequestOk(s.requests[q]);
      SubscribersSound(s, q, s.requests[q].subscribers - {sub});
    }
  }

  lemma TakeKeepsSubscribers(r: Request, sub: Id)
    requires StreamsOk(r)
    ensures forall k :: k in TakeOne(r.subscribers, sub) ==> SubscriberOk(r, TakeOne(r.subscribers, sub)[k])
  {
    if sub in r.subscribers && r.subscribers[sub].pending > 0 {
      var u := r.subscribers[sub];
      assert SubscriberOk(r, u);
      assert SubscriberOk(r, u.(pending := u.pending - 1));
    }
  }

  lemma ReceiveEventSound(s: State, q: Id, sub: Id)
    requires Inv(s)
    ensures Sound(s, ReceiveEvent(s, q, sub))
  {
    if q in s.requests {
      assert RequestOk(s.requests[q]);
      TakeKeepsSubscribers(s.requests[q], sub);
      SubscribersSound(s, q, TakeOne(s.requests[q].subscribers, sub));
    } else {
      SoundReflexive(s);
    }
  }

  // ---------------------------------------------------------------- any step

  /** Every operation keeps the invariant and lets every request only evolve. */
  lemma StepSound(s: State, op: Op)
    requires Inv(s) && Enabled(s, op)
    ensures Sound(s, Step(s, op))
  {
    if op.DoRegister? || op.DoLogin? || op.DoGuest? || op.DoPersona? {
      SignInSound(s, op);
    } else if op.DoSubscribe? || op.DoUnsubscribe? || op.DoReceiveEvent? {
      StreamSound(s, op);
    } else {
      LifecycleSound(s, op);
    }
  }

  lemma SignInSound(s: State, op: Op)
    requires op.DoRegister? || op.DoLogin? || op.DoGuest? || op.DoPersona?
    requires Inv(s) && Enabled(s, op)
    ensures Sound(s, Step(s, op))
  {
    match op
    case DoRegister(user, token, id) => RegisterSound(s, user, token, id);
    case DoLogin(user, token, id) => AddSessionSound(s, token, id, Session(user, false, Human));
    case DoGuest(token, id) => AddSessionSound(s, token, id, Session("", true, Human));
    case DoPersona(token, id) => AddSessionSound(s, token, id, Session("", true, AiPersona));
  }

  lemma StreamSound(s: State, op: Op)
    requires op.DoSubscribe? || op.DoUnsubscribe? || op.DoReceiveEvent?
    requires Inv(s)
    ensures Sound(s, Step(s, op))
  {
    match op
    case DoSubscribe(q, sub) => SubscribeSound(s, q, sub);
    case DoUnsubscribe(q, sub) => UnsubscribeSound(s, q, sub);
    case DoReceiveEvent(q, sub) => ReceiveEventSound(s, q, sub);
  }

  lemma LifecycleSound(s: State, op: Op)
    requires !op.DoRegister? && !op.DoLogin? && !op.DoGuest? && !op.DoPersona?
    requires !op.DoSubscribe? && !op.DoUnsubscribe? && !op.DoReceiveEvent?
    requires Inv(s) && Enabled(s, op)
    ensures Sound(s, Step(s, op))
  {
    match op
    case DoCreate(token, q, messages, max, allow, now) => CreateSound(s, token, q, messages, max, allow, "", now);
    case DoCreateTargeted(token, q, messages, max, preferred, now) =>
      SoundReflexive(s);
      CreateSound(s, token, q, messages, max, false, preferred, now);
    case DoCancel(q, now) => CancelSound(s, q, now);
    case DoReact(token, q, reaction, now) => ReactSound(s, token, q, reaction, now);
    case DoRegisterResponder(token) => RegisterResponderSound(s, token);
    case DoReceiveAssignment(a) => ReceiveAssignmentSound(s, a);
    case DoUnregister(a, now) => UnregisterSound(s, a, now);
    case DoMarkAvailable(a, accept, now) => MarkAvailableSound(s, a, accept, now);
    case DoResume(a, now) =>
      SoundReflexive(s);
      if a in s.responders { OfferSound(s, a, now); }
    case DoFallback(q, now) => FallbackSound(s, q, now);
    case DoSubmit(a, n, text, f, now) => SubmitSound(s, a, n, text, f, now);
    case DoFinish(a, now) => FinishSound(s, a, now);
    case DoSkip(a, now) => SkipSound(s, a, now);
    case DoSweep(order, now, at, st) => SweepSound(s, order, now, at, st);
  }

  lemma {:induction false} RunSound(s: State, ops: seq<Op>)
    requires Inv(s) && ValidRun(s, ops)
    ensures Sound(s, Run(s, ops))
    decreases |ops|
  {
    if ops == [] {
      SoundReflexive(s);
    } else {
      var n := |ops| - 1;
      RunSound(s, ops[..n]);
      StepSound(Run(s, ops[..n]), ops[n]);
      SoundTransitive(s, Run(s, ops[..n]), Run(s, ops));
    }
  }

  lemma EmptyInv()
    ensures Inv(EMPTY)
  {
  }
}
