/** What every run of the in-memory service guarantees. */
module ServiceTheorems {
  import opened Sequences
  import opened Domain
  import opened Sums
  import opened ServiceSpec
  import opened RequestRules
  import opened ServiceInvariant
  import opened ServiceSteps
  import opened ServiceOperations
  import Matching

  /** The service invariant holds after every sequence of operations. */
  lemma InvariantInEveryRun(ops: seq<Op>)
    requires ValidRun(EMPTY, ops)
    ensures Inv(Run(EMPTY, ops))
  {
    EmptyInv();
    RunSound(EMPTY, ops);
  }

  // ---------------------------------------------------------------- lifecycle

  /** Whatever happens later, a request keeps its question, its answer only grows at the end, an ended
      request stays as it ended, and a request with an answer neither goes back to the queue, nor is
      abandoned, nor changes hands. */
  lemma LifecycleOverRuns(ops: seq<Op>, more: seq<Op>, q: Id)
    requires ValidRun(EMPTY, ops) && ValidRun(Run(EMPTY, ops), more)
    requires q in Run(EMPTY, ops).requests
    ensures var s, s' := Run(EMPTY, ops), Run(Run(EMPTY, ops), more);
            && q in s'.requests
            && Evolves(s.requests[q], s'.requests[q])
            && (forall f, g :: f in s.requests[q].fragments && g in s'.requests[q].fragments ==> f.session == g.session)
  {
    InvariantInEveryRun(ops);
    RunSound(Run(EMPTY, ops), more);
    LaterRequest(Run(EMPTY, ops), Run(Run(EMPTY, ops), more), q);
  }

  lemma LaterRequest(s: State, s': State, q: Id)
    requires RequestsOk(s') && Advances(s, s') && q in s.requests
    ensures q in s'.requests && Evolves(s.requests[q], s'.requests[q])
    ensures forall f, g :: f in s.requests[q].fragments && g in s'.requests[q].fragments ==> f.session == g.session
  {
    assert RequestOk(s'.requests[q]);
    OneSession(s.requests[q], s'.requests[q]);
  }

  lemma OneSession(r: Request, r': Request)
    requires AnswerOk(r') && Evolves(r, r')
    ensures forall f, g :: f in r.fragments && g in r'.fragments ==> f.session == g.session
  {
    forall f | f in r.fragments ensures f in r'.fragments {
    }
  }

  /** Every live answer is shorter than its limit, none is longer, and an answer ends for `Length`
      exactly when it is as long as its limit. */
  lemma ExactOutputLimit(ops: seq<Op>, q: Id)
    requires ValidRun(EMPTY, ops) && q in Run(EMPTY, ops).requests
    ensures var r := Run(EMPTY, ops).requests[q];
            && |AnswerText(r.fragments)| <= r.ask.limit <= OUTPUT_LIMIT
            && (!IsTerminal(r.status) ==> |AnswerText(r.fragments)| < r.ask.limit)
            && (r.finish == Length <==> |AnswerText(r.fragments)| == r.ask.limit)
            && (r.finish == Length ==> r.status == Completed)
  {
    InvariantInEveryRun(ops);
    assert RequestOk(Run(EMPTY, ops).requests[q]);
  }

  /** Who holds or answered a request, in every reachable state. */
  lemma ParticipationRespected(ops: seq<Op>, q: Id)
    requires ValidRun(EMPTY, ops) && q in Run(EMPTY, ops).requests
    requires Run(EMPTY, ops).requests[q].responder.Responder?
    ensures var r := Run(EMPTY, ops).requests[q];
            && (!r.ask.allowAi ==> r.responder.kind != AiPersona && r.responder.kind != Fallback)
            && (r.ask.kind == AiPersona ==> r.responder.kind != AiPersona)
            && (r.ask.preferred != "" ==> r.responder.session == r.ask.preferred && r.responder.kind == Human)
  {
    InvariantInEveryRun(ops);
    var s := Run(EMPTY, ops);
    assert RequestOk(s.requests[q]) && PeopleOk(s.users, s.requests[q]);
  }

  // ---------------------------------------------------------------- subscribers

  /** A subscriber has been sent the answer in order, with one end marker after it once the request has
      ended, exactly if its buffer was never found full.  The reason it is told is the stored one, if and
      only if the request was not abandoned while it was listening; then it is told `Stop`. */
  lemma SubscriberAgreement(ops: seq<Op>, q: Id, sub: Id)
    requires ValidRun(EMPTY, ops) && q in Run(EMPTY, ops).requests
    requires sub in Run(EMPTY, ops).requests[q].subscribers
    ensures var r := Run(EMPTY, ops).requests[q];
            var u := r.subscribers[sub];
            && (!u.lost <==> Delivered(u.log, AnswerText(r.fragments), IsTerminal(r.status)))
            && (forall i :: 0 <= i < |u.log| && u.log[i].Done? ==>
                  && IsTerminal(r.status) && i == |u.log| - 1
                  && (u.log[i].reason == r.finish <==> r.status != Abandoned || u.late)
                  && (r.status == Abandoned && !u.late ==> u.log[i].reason == Stop))
  {
    InvariantInEveryRun(ops);
    assert RequestOk(Run(EMPTY, ops).requests[q]);
    SubscriberMeans(Run(EMPTY, ops).requests[q], sub);
  }

  lemma SubscriberMeans(r: Request, sub: Id)
    requires Shape(r) && StreamsOk(r) && sub in r.subscribers
    ensures var u := r.subscribers[sub];
            && (!u.lost <==> Delivered(u.log, AnswerText(r.fragments), IsTerminal(r.status)))
            && (forall i :: 0 <= i < |u.log| && u.log[i].Done? ==>
                  && IsTerminal(r.status) && i == |u.log| - 1
                  && (u.log[i].reason == r.finish <==> r.status != Abandoned || u.late)
                  && (r.status == Abandoned && !u.late ==> u.log[i].reason == Stop))
  {
    assert SubscriberOk(r, r.subscribers[sub]);
  }

  // ---------------------------------------------------------------- the ledger

  function AskedFor(user: Id): Request -> int {
    r => if AskedBy(r, user) then 1 else 0
  }

  function RewardsFor(user: Id): Request -> int {
    r => if AnsweredBy(r, user) then RewardFor(r.reaction) else 0
  }

  /** `user` asked `r`, it is live and nothing of the answer has been committed. */
  predicate Pending(r: Request, user: Id) {
    !r.ask.guest && r.ask.requester == user && !IsTerminal(r.status) && r.fragments == []
  }

  function PendingFor(user: Id): Request -> int {
    r => if Pending(r, user) then 1 else 0
  }

  /** Total and held points of a registered user, in closed form. */
  lemma LedgerClosedForm(ops: seq<Op>, user: Id)
    requires ValidRun(EMPTY, ops) && user in Run(EMPTY, ops).users
    ensures var s := Run(EMPTY, ops);
            var balance := BalanceOf(s, user);
            && balance.total == SIGNUP_GRANT - QUESTION_COST * Sum(s.requests, AskedFor(user)) + Sum(s.requests, RewardsFor(user))
            && balance.held == QUESTION_COST * Sum(s.requests, PendingFor(user))
  {
    InvariantInEveryRun(ops);
    var s := Run(EMPTY, ops);
    SumLinear(s.requests, EarnedFor(user), RewardsFor(user), AskedFor(user), -QUESTION_COST);
    HeldClosedForm(s, user);
  }

  function NothingFor(): Request -> int {
    r => 0
  }

  lemma HeldPointwise(users: set<Id>, r: Request, user: Id)
    requires Shape(r) && PeopleOk(users, r) && user in users && "" !in users
    ensures HeldBy(r, user) == QUESTION_COST * (if Pending(r, user) then 1 else 0)
  {
  }

  lemma HeldClosedForm(s: State, user: Id)
    requires RequestsOk(s) && "" !in s.users && user in s.users
    ensures Held(s.requests, user) == QUESTION_COST * Sum(s.requests, PendingFor(user))
  {
    forall q | q in s.requests
      ensures HeldFor(user)(s.requests[q]) == NothingFor()(s.requests[q]) + QUESTION_COST * PendingFor(user)(s.requests[q])
    {
      HeldPointwise(s.users, s.requests[q], user);
    }
    SumZero(s.requests, NothingFor());
    SumLinear(s.requests, HeldFor(user), NothingFor(), PendingFor(user), QUESTION_COST);
  }

  /** A user can be overdrawn by no more than what reactions keep its answers below the best reward,
      and by no more than what reactions have taken back. */
  lemma BoundedOverdraft(ops: seq<Op>, user: Id)
    requires ValidRun(EMPTY, ops) && user in Run(EMPTY, ops).users
    ensures var s := Run(EMPTY, ops);
            && BalanceOf(s, user).available + Sum(s.requests, SlackFor(user)) >= 0
            && BalanceOf(s, user).available + Lowered(s.ledger, user) >= 0
  {
    InvariantInEveryRun(ops);
  }

  /** Without a reaction that lowers a reward, nobody is ever overdrawn. */
  lemma NoOverdraftUnlessLowered(ops: seq<Op>, user: Id)
    requires ValidRun(EMPTY, ops) && user in Run(EMPTY, ops).users
    requires forall e :: e in Run(EMPTY, ops).ledger && e.user == user && e.kind == ReactionAdjustment ==> e.delta >= 0
    ensures BalanceOf(Run(EMPTY, ops), user).available >= 0
  {
    BoundedOverdraft(ops, user);
    NothingLowered(Run(EMPTY, ops).ledger, user);
  }

  lemma {:induction false} NothingLowered(ledger: seq<Entry>, user: Id)
    requires forall e :: e in ledger && e.user == user && e.kind == ReactionAdjustment ==> e.delta >= 0
    ensures Lowered(ledger, user) == 0
  {
    if ledger != [] {
      var n := |ledger| - 1;
      assert ledger[n] in ledger;
      NothingLowered(ledger[..n], user);
    }
  }

  // ---------------------------------------------------------------- retries

  datatype Submission = Submission(clientSeq: int, text: string, fragment: Id, now: int)

  function Submit(s: State, a: Id, x: Submission): State {
    SubmitFragment(s, a, x.clientSeq, x.text, x.fragment, x.now).0
  }

  function SubmitAll(s: State, a: Id, xs: seq<Submission>): State {
    if xs == [] then s else Submit(SubmitAll(s, a, xs[..|xs| - 1]), a, xs[|xs| - 1])
  }

  predicate Repeats(xs: seq<Submission>, clientSeq: int) {
    exists i :: 0 <= i < |xs| && xs[i].clientSeq == clientSeq
  }

  /** `xs` without any submission whose client sequence came before. */
  function FirstOnly(xs: seq<Submission>): seq<Submission> {
    if xs == [] then []
    else
      var n := |xs| - 1;
      FirstOnly(xs[..n]) + (if Repeats(xs[..n], xs[n].clientSeq) then [] else [xs[n]])
  }

  /** Repeating the client sequence of `x` with the text of `y` can have no effect: no request would take `y`, or
      every request that turns `x` down for its text turns `y` down too. */
  predicate IsRetry(x: Submission, y: Submission) {
    y.clientSeq <= 0 || y.text == "" || |y.text| > OUTPUT_LIMIT || (x.text != "" && |x.text| <= |y.text|)
  }

  ghost predicate RetriesOnly(xs: seq<Submission>) {
    forall i, j :: 0 <= i < j < |xs| && xs[i].clientSeq == xs[j].clientSeq ==> IsRetry(xs[i], xs[j])
  }

  /** What a commit does to the session that submitted. */
  lemma CommitEffect(s: State, a: Id, f: Fragment)
    requires a in s.active && s.active[a] in s.requests && Fits(s.requests[s.active[a]], f) && f.session == a
    ensures var q, s' := s.active[a], Commit(s, s.active[a], f);
            && q in s'.requests
            && s'.requests[q].fragments == s.requests[q].fragments + [f]
            && s'.requests[q].ask == s.requests[q].ask
            && s'.requests[q].seen == s.requests[q].seen[SeqKey(a, f.clientSeq) := f]
            && (a in s'.active ==> s'.active[a] == q)
  {
    var q := s.active[a];
    CommitIs(s, q, f);
    assert Filled(s, q, f).requests[q].seen == AppendFragment(s.requests[q], f).seen;
    assert Filled(s, q, f).requests[q].fragments == AppendFragment(s.requests[q], f).fragments;
  }

  /** A submission that was turned down, or stored, is turned down after any further submission too. */
  lemma StaysTurnedDown(s: State, a: Id, n: int, text: string, y: Submission)
    requires Inv(s) && !Accepts(s, a, n, text)
    ensures !Accepts(Submit(s, a, y), a, n, text)
  {
    SubmitIs(s, a, y.clientSeq, y.text, y.fragment, y.now);
    if Accepts(s, a, y.clientSeq, y.text) {
      var f := Fragment(y.fragment, a, y.clientSeq, y.text, y.now);
      HeldRequest(s, a);
      CommitEffect(s, a, f);
      AnswerAppend(s.requests[s.active[a]].fragments, f);
    }
  }

  lemma TurnedDownAfter(s: State, a: Id, x: Submission)
    requires Inv(s)
    ensures !Accepts(Submit(s, a, x), a, x.clientSeq, x.text)
  {
    SubmitIs(s, a, x.clientSeq, x.text, x.fragment, x.now);
    if Accepts(s, a, x.clientSeq, x.text) {
      HeldRequest(s, a);
      CommitEffect(s, a, Fragment(x.fragment, a, x.clientSeq, x.text, x.now));
    }
  }

  lemma {:induction false} SubmitAllSound(s: State, a: Id, xs: seq<Submission>)
    requires Inv(s)
    ensures Inv(SubmitAll(s, a, xs))
    decreases |xs|
  {
    if xs != [] {
      var n := |xs| - 1;
      SubmitAllSound(s, a, xs[..n]);
      SubmitSound(SubmitAll(s, a, xs[..n]), a, xs[n].clientSeq, xs[n].text, xs[n].fragment, xs[n].now);
    }
  }

  lemma {:induction false} EarlierTurnedDown(s: State, a: Id, xs: seq<Submission>, i: nat)
    requires Inv(s) && i < |xs|
    ensures !Accepts(SubmitAll(s, a, xs), a, xs[i].clientSeq, xs[i].text)
    decreases |xs|
  {
    var n := |xs| - 1;
    SubmitAllSound(s, a, xs[..n]);
    if i == n {
      TurnedDownAfter(SubmitAll(s, a, xs[..n]), a, xs[n]);
    } else {
      EarlierTurnedDown(s, a, xs[..n], i);
      StaysTurnedDown(SubmitAll(s, a, xs[..n]), a, xs[i].clientSeq, xs[i].text, xs[n]);
    }
  }

  lemma RetryTurnedDown(s: State, a: Id, x: Submission, y: Submission)
    requires Inv(s) && !Accepts(s, a, x.clientSeq, x.text) && x.clientSeq == y.clientSeq && IsRetry(x, y)
    ensures Submit(s, a, y) == s
  {
    SubmitIs(s, a, y.clientSeq, y.text, y.fragment, y.now);
    if a in s.active {
      HeldRequest(s, a);
    }
  }

  lemma LastIsRetry(s: State, a: Id, xs: seq<Submission>)
    requires Inv(s) && RetriesOnly(xs) && xs != [] && Repeats(xs[..|xs| - 1], xs[|xs| - 1].clientSeq)
    ensures SubmitAll(s, a, xs) == SubmitAll(s, a, xs[..|xs| - 1])
  {
    var n := |xs| - 1;
    var i :| 0 <= i < n && xs[..n][i].clientSeq == xs[n].clientSeq;
    SubmitAllSound(s, a, xs[..n]);
    EarlierTurnedDown(s, a, xs[..n], i);
    RetryTurnedDown(SubmitAll(s, a, xs[..n]), a, xs[i], xs[n]);
  }

  /** Retries leave no trace: any sequence of submissions of one session leads to the same state, in
      every respect, as the first submission of each client sequence alone. */
  lemma {:induction false} RetriesLeaveNoTrace(s: State, a: Id, xs: seq<Submission>)
    requires Inv(s) && RetriesOnly(xs)
    ensures SubmitAll(s, a, xs) == SubmitAll(s, a, FirstOnly(xs))
    decreases |xs|
  {
    if xs != [] {
      var n := |xs| - 1;
      var t, firsts := SubmitAll(s, a, xs[..n]), FirstOnly(xs[..n]);
      RetriesLeaveNoTrace(s, a, xs[..n]);
      if Repeats(xs[..n], xs[n].clientSeq) {
        LastIsRetry(s, a, xs);
        assert FirstOnly(xs) == firsts;
      } else {
        assert FirstOnly(xs) == firsts + [xs[n]];
        assert (firsts + [xs[n]])[..|firsts|] == firsts;
      }
    }
  }

  /** In any run: while a session keeps its request, repeating a stored client sequence, with whatever
      text, changes nothing and is answered with the stored fragment. */
  lemma RetryAfterAnything(s: State, a: Id, x: Submission, more: seq<Op>, y: Submission)
    requires Inv(s) && Accepts(s, a, x.clientSeq, x.text) && x.clientSeq == y.clientSeq && y.text != ""
    requires ValidRun(Submit(s, a, x), more)
    requires var t := Run(Submit(s, a, x), more); a in t.active && t.active[a] == s.active[a]
    ensures var t := Run(Submit(s, a, x), more);
            SubmitFragment(t, a, y.clientSeq, y.text, y.fragment, y.now)
            == (t, Ok((Fragment(x.fragment, a, x.clientSeq, x.text, x.now), true)))
  {
    var f, s' := Fragment(x.fragment, a, x.clientSeq, x.text, x.now), Submit(s, a, x);
    AcceptedIsStored(s, a, x);
    RunSound(s', more);
    StoredStays(s', Run(s', more), s.active[a], f);
    RetryAnswered(Run(s', more), a, y);
  }

  lemma AcceptedIsStored(s: State, a: Id, x: Submission)
    requires Inv(s) && Accepts(s, a, x.clientSeq, x.text)
    ensures var s' := Submit(s, a, x);
            Inv(s') && s.active[a] in s'.requests
            && Fragment(x.fragment, a, x.clientSeq, x.text, x.now) in s'.requests[s.active[a]].fragments
  {
    SubmitIs(s, a, x.clientSeq, x.text, x.fragment, x.now);
    SubmitSound(s, a, x.clientSeq, x.text, x.fragment, x.now);
    HeldRequest(s, a);
    CommitEffect(s, a, Fragment(x.fragment, a, x.clientSeq, x.text, x.now));
  }

  lemma RetryAnswered(s: State, a: Id, y: Submission)
    requires Inv(s) && a in s.active && y.clientSeq > 0 && y.text != ""
    requires s.active[a] in s.requests && SeqKey(a, y.clientSeq) in s.requests[s.active[a]].seen
    ensures SubmitFragment(s, a, y.clientSeq, y.text, y.fragment, y.now)
            == (s, Ok((s.requests[s.active[a]].seen[SeqKey(a, y.clientSeq)], true)))
  {
    HeldRequest(s, a);
  }

  lemma StoredStays(s: State, t: State, q: Id, f: Fragment)
    requires Sound(s, t) && q in s.requests && f in s.requests[q].fragments && f.clientSeq > 0
    ensures q in t.requests && SeqKey(f.session, f.clientSeq) in t.requests[q].seen
            && t.requests[q].seen[SeqKey(f.session, f.clientSeq)] == f
  {
    assert Evolves(s.requests[q], t.requests[q]);
    assert f in t.requests[q].fragments;
    assert RequestOk(t.requests[q]);
  }

  /** Exactly when repeating a client sequence with another text does have an effect: the first
      submission was turned down and the second would have been taken in its place. */
  lemma RepeatMattersIff(s: State, a: Id, x: Submission, y: Submission)
    requires Inv(s) && x.clientSeq == y.clientSeq
    ensures Submit(Submit(s, a, x), a, y) != Submit(s, a, x)
            <==> !Accepts(s, a, x.clientSeq, x.text) && Accepts(s, a, y.clientSeq, y.text)
  {
    var t := Submit(s, a, x);
    SubmitIs(s, a, x.clientSeq, x.text, x.fragment, x.now);
    SubmitIs(t, a, y.clientSeq, y.text, y.fragment, y.now);
    if Accepts(s, a, x.clientSeq, x.text) {
      HeldRequest(s, a);
      CommitEffect(s, a, Fragment(x.fragment, a, x.clientSeq, x.text, x.now));
    } else if Accepts(s, a, y.clientSeq, y.text) {
      HeldRequest(s, a);
      CommitEffect(s, a, Fragment(y.fragment, a, y.clientSeq, y.text, y.now));
    }
  }

  /** A reachable state in which a request of the given limit waits for its first fragment. */
  lemma Waiting(limit: int) returns (ops: seq<Op>)
    requires 1 <= limit <= OUTPUT_LIMIT
    ensures ValidRun(EMPTY, ops)
    ensures var s, a := Run(EMPTY, ops), FallbackSession("req");
            && a in s.active && s.active[a] == "req" && "req" in s.requests && s.requests["req"].ask.limit == limit
            && s.requests["req"].status == Assigned && s.requests["req"].fragments == [] && s.requests["req"].seen == map[]
  {
    ops := Asked(limit);
    var s := Run(EMPTY, ops);
    ops := ops + [DoFallback("req", 0)];
    assert ops[..|ops| - 1] == ops[..2];
    WithoutMembers(s.queue, "req");
  }

  lemma TwoSteps(op: Op, op': Op)
    requires Enabled(EMPTY, op) && Enabled(Step(EMPTY, op), op')
    ensures ValidRun(EMPTY, [op, op']) && Run(EMPTY, [op, op']) == Step(Step(EMPTY, op), op')
  {
    assert [op, op'][..1] == [op] && [op][..0] == [];
    assert Run(EMPTY, []) == EMPTY;
    assert Run(EMPTY, [op]) == Step(EMPTY, op);
  }

  const GUEST := Session("", true, Human)

  /** Without a responder the question of a guest stays in the queue. */
  lemma GuestAsks(limit: int)
    ensures var s, r := AddSession(EMPTY, "tok", "ses_", GUEST), NewRequest("ses_", GUEST, true, "", [], limit, 0);
            CreateRequest(s, "tok", "req", [], limit, true, "", 0).0 == s.(requests := s.requests["req" := r], queue := s.queue + ["req"])
  {
    var s, r := AddSession(EMPTY, "tok", "ses_", GUEST), NewRequest("ses_", GUEST, true, "", [], limit, 0);
    var t := s.(requests := s.requests["req" := r], queue := s.queue + ["req"]);
    Matching.MemoryNextNone(t.queue, t.available, CompatibleIn(t));
    assert TryAssign(t, 0) == t;
    assert InputSize([]) == 0;
  }

  lemma Asked(limit: int) returns (ops: seq<Op>)
    requires 1 <= limit <= OUTPUT_LIMIT
    ensures |ops| == 2 && ValidRun(EMPTY, ops)
    ensures var s := Run(EMPTY, ops);
            "req" in s.requests && s.requests["req"] == NewRequest("ses_", GUEST, true, "", [], limit, 0)
  {
    ops := [DoGuest("tok", "ses_"), DoCreate("tok", "req", [], limit, true, 0)];
    assert Step(EMPTY, ops[0]) == AddSession(EMPTY, "tok", "ses_", GUEST);
    TwoSteps(ops[0], ops[1]);
    GuestAsks(limit);
  }

  /** For two submissions of one client sequence the condition is exact: in every reachable state the second leaves
      no trace, if and only if it is a retry. */
  lemma RetryLeavesNoTraceIff(x: Submission, y: Submission)
    requires x.clientSeq == y.clientSeq
    ensures (forall ops, a :: ValidRun(EMPTY, ops) ==> Submit(Submit(Run(EMPTY, ops), a, x), a, y) == Submit(Run(EMPTY, ops), a, x))
            <==> IsRetry(x, y)
  {
    if IsRetry(x, y) {
      forall ops, a | ValidRun(EMPTY, ops)
        ensures Submit(Submit(Run(EMPTY, ops), a, x), a, y) == Submit(Run(EMPTY, ops), a, x)
      {
        InvariantInEveryRun(ops);
        var s := Run(EMPTY, ops);
        SubmitSound(s, a, x.clientSeq, x.text, x.fragment, x.now);
        TurnedDownAfter(s, a, x);
        RetryTurnedDown(Submit(s, a, x), a, x, y);
      }
    } else {
      var ops := Waiting(|y.text|);
      InvariantInEveryRun(ops);
      RepeatStored(Run(EMPTY, ops), FallbackSession("req"), x, y);
    }
  }

  /** A text that does not fit is turned down, and a repeat of the same client sequence that does is then stored. */
  lemma RepeatStored(s: State, a: Id, x: Submission, y: Submission)
    requires Inv(s) && x.clientSeq == y.clientSeq && !IsRetry(x, y)
    requires a in s.active && s.active[a] in s.requests
    requires var r := s.requests[s.active[a]]; r.status == Assigned && r.fragments == [] && r.seen == map[] && r.ask.limit == |y.text|
    ensures Submit(Submit(s, a, x), a, y) != Submit(s, a, x)
  {
    OnlySecondFits(s, a, x, y);
    RepeatMattersIff(s, a, x, y);
  }

  lemma OnlySecondFits(s: State, a: Id, x: Submission, y: Submission)
    requires x.clientSeq == y.clientSeq && !IsRetry(x, y)
    requires a in s.active && s.active[a] in s.requests
    requires var r := s.requests[s.active[a]]; r.status == Assigned && r.fragments == [] && r.seen == map[] && r.ask.limit == |y.text|
    ensures !Accepts(s, a, x.clientSeq, x.text) && Accepts(s, a, y.clientSeq, y.text)
  {
    assert AnswerText([]) == "";
  }
}
