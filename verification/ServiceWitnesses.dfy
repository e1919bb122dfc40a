/** Runs of the service that show the exceptions of the general theorems: an overdrawn account, a pair left waiting
    by a disconnect, and a subscriber that is told another end reason than the stored one. */
module ServiceWitnesses {
  import opened Sequences
  import opened Domain
  import opened Sums
  import opened ServiceSpec
  import opened RequestRules
  import opened ServiceInvariant
  import opened ServiceSteps
  import opened ServiceOperations
  import opened ServiceTheorems
  import opened ServiceMatching
  import opened ServiceEffects
  import opened Overdraft
  import Matching

  lemma Then(ops: seq<Op>, op: Op) returns (longer: seq<Op>)
    requires ValidRun(EMPTY, ops) && Enabled(Run(EMPTY, ops), op)
    ensures ValidRun(EMPTY, longer) && Run(EMPTY, longer) == Step(Run(EMPTY, ops), op)
  {
    longer := ops + [op];
    assert longer[..|ops|] == ops;
  }

  // ---------------------------------------------------------------- a user answers a guest

  const USER := Session("u", false, Human)

  /** The user "u" and a guest are signed in, and the user waits for questions. */
  function Waits(): State {
    var s := AddSession(Register(EMPTY, "u", "tu", "ses_u"), "tg", "ses_g", GUEST);
    s.(responders := map["ses_u" := []], acceptAi := map["ses_u" := true], available := ["ses_u"])
  }

  lemma NothingQueued(s: State, now: int)
    requires s.queue == [] || s.available == []
    ensures TryAssign(s, now) == s
  {
    Matching.MemoryNextNone(s.queue, s.available, CompatibleIn(s));
  }

  lemma UserWaits() returns (ops: seq<Op>)
    ensures ValidRun(EMPTY, ops) && Run(EMPTY, ops) == Waits()
  {
    ops := Then([], DoRegister("u", "tu", "ses_u"));
    ops := Then(ops, DoGuest("tg", "ses_g"));
    ops := Then(ops, DoRegisterResponder("tu"));
    var s := Run(EMPTY, ops);
    assert s == Waits().(acceptAi := map[], available := []);
    NothingQueued(Waits(), 0);
    ops := Then(ops, DoMarkAvailable("ses_u", true, 0));
    assert s.acceptAi["ses_u" := true] == Waits().acceptAi;
    assert s.available + ["ses_u"] == Waits().available;
  }

  const QUESTION := NewRequest("ses_g", GUEST, true, "", [], 1, 0)

  /** The user holds the guest's question "q". */
  function Holding(): State {
    Waits().(requests := map["q" := AssignRequest(QUESTION, Responder("ses_u", "u", false, Human), 0)],
             active := map["ses_u" := "q"], responders := map["ses_u" := ["q"]], available := [])
  }

  lemma QuestionIsTaken()
    ensures TryAssign(Waits().(requests := map["q" := QUESTION], queue := ["q"]), 0) == Holding()
  {
    var s := Waits().(requests := map["q" := QUESTION], queue := ["q"]);
    assert Compatible(s, "q", "ses_u");
    Matching.MemoryNextIs(s.queue, s.available, CompatibleIn(s), 0, 0);
    QuestionIsHanded(s);
    TryAssignIs(s, 0);
    NothingQueued(Holding(), 0);
  }

  lemma QuestionIsHanded(s: State)
    requires s == Waits().(requests := map["q" := QUESTION], queue := ["q"]) && Compatible(s, "q", "ses_u")
    ensures AssignNext(s, 0, 0, 0) == Holding()
  {
    var t := Assign(s, 0, 0, 0);
    assert t == Holding().(responders := map["ses_u" := []]);
    assert [] + ["q"] == ["q"];
    assert t.responders["ses_u" := ["q"]] == map["ses_u" := ["q"]];
    assert Deliver(t, "q", "ses_u", 0) == t.(responders := map["ses_u" := ["q"]]);
  }

  lemma UserHolds() returns (ops: seq<Op>)
    ensures ValidRun(EMPTY, ops) && Run(EMPTY, ops) == Holding()
  {
    ops := UserWaits();
    GuestIsHeard();
    ops := Then(ops, DoCreate("tg", "q", [], 1, true, 0));
  }

  lemma GuestIsHeard()
    ensures CreateRequest(Waits(), "tg", "q", [], 1, true, "", 0).0 == Holding()
  {
    QuestionIsTaken();
    QuestionIsQueued();
  }

  lemma QuestionIsQueued()
    ensures CreateRequest(Waits(), "tg", "q", [], 1, true, "", 0).0
         == TryAssign(Waits().(requests := map["q" := QUESTION], queue := ["q"]), 0)
  {
    var s := Waits();
    GuestCreates(s, "tg", "q");
    assert s.requests["q" := QUESTION] == map["q" := QUESTION] && s.queue + ["q"] == ["q"];
  }

  /** A guest's short question is enqueued and matched. */
  lemma GuestCreates(s: State, token: Id, q: Id)
    requires SessionOf(s, token) == Some("ses_g") && s.sessions["ses_g"] == GUEST
    ensures CreateRequest(s, token, q, [], 1, true, "", 0).0
         == TryAssign(s.(requests := s.requests[q := QUESTION], queue := s.queue + [q]), 0)
  {
    assert InputSize([]) == 0;
  }

  // ---------------------------------------------------------------- a disconnect leaves a pair waiting

  /** Someone else waits for questions while the user still holds the only one. */
  function OtherWaits(): State {
    AddSession(Holding(), "tb", "ses_b", GUEST).(responders := map["ses_u" := ["q"], "ses_b" := []],
                                               acceptAi := map["ses_u" := true, "ses_b" := true], available := ["ses_b"])
  }

  lemma OtherIsWaiting() returns (ops: seq<Op>)
    ensures ValidRun(EMPTY, ops) && Run(EMPTY, ops) == OtherWaits()
  {
    ops := UserHolds();
    ops := Then(ops, DoGuest("tb", "ses_b"));
    ops := Then(ops, DoRegisterResponder("tb"));
    assert Run(EMPTY, ops) == OtherWaits().(acceptAi := map["ses_u" := true], available := []);
    OtherIsListed();
    ops := Then(ops, DoMarkAvailable("ses_b", true, 0));
  }

  lemma OtherIsListed()
    ensures MarkAvailable(OtherWaits().(acceptAi := map["ses_u" := true], available := []), "ses_b", true, 0).0 == OtherWaits()
  {
    var s := OtherWaits().(acceptAi := map["ses_u" := true], available := []);
    assert s.acceptAi["ses_b" := true] == OtherWaits().acceptAi;
    assert s.available + ["ses_b"] == OtherWaits().available;
    NothingQueued(OtherWaits(), 0);
  }

  /** A run in which no pair is waiting until a disconnect leaves one: the user takes the question, somebody else
      becomes available, the user goes away. */
  lemma DisconnectLeavesPair() returns (ops: seq<Op>)
    ensures ValidRun(EMPTY, ops) && Enabled(Run(EMPTY, ops), DoUnregister("ses_u", 0))
    ensures Quiescent(Run(EMPTY, ops)) && !Quiescent(Step(Run(EMPTY, ops), DoUnregister("ses_u", 0)))
  {
    ops := OtherIsWaiting();
    InvariantInEveryRun(ops);
    OtherCouldTake();
    DisconnectLeavesPairIff(OtherWaits(), "ses_u", 0);
  }

  lemma OtherCouldTake()
    ensures var s := OtherWaits();
            && Quiescent(s) && DisconnectRequeues(s, DoUnregister("ses_u", 0))
            && CouldTake(s, s.requests[s.active["ses_u"]].ask, "ses_b")
  {
  }

  // ---------------------------------------------------------------- a subscriber is told another reason

  /** A run after which a subscriber has been told that the answer stopped, and no reason is stored: it subscribes,
      then the question is withdrawn. */
  lemma ToldAnotherReason() returns (ops: seq<Op>)
    ensures ValidRun(EMPTY, ops)
    ensures var s := Run(EMPTY, ops);
            && "req" in s.requests && s.requests["req"].finish == NoReason && s.requests["req"].status == Abandoned
            && "sub" in s.requests["req"].subscribers && s.requests["req"].subscribers["sub"].log == [Done(Stop)]
  {
    ops := Asked(1);
    assert AnswerText([]) == "";
    ops := Then(ops, DoSubscribe("req", "sub"));
    var s := Run(EMPTY, ops);
    assert s.requests["req"].subscribers["sub"] == Subscriber([], 0, false, false);
    ops := Then(ops, DoCancel("req", 0));
    assert [] + [Done(Stop)] == [Done(Stop)];
  }

  // ---------------------------------------------------------------- an overdrawn account

  /** The guest's question as the user has answered it. */
  ghost predicate IsAnswered(r: Request) {
    && r.ask == QUESTION.ask && r.status == Completed && r.completedAt == Some(0) && r.reaction == Neutral
    && r.responder == Responder("ses_u", "u", false, Human)
  }

  /** The user has answered "q" and has `points` left to spend; request ids are at most `n` characters long. */
  ghost predicate Answered(s: State, points: int, n: nat) {
    && s.available == [] && "u" in s.users && Spendable(s, "u") == points
    && SessionOf(s, "tu") == Some("ses_u") && s.sessions["ses_u"] == USER
    && SessionOf(s, "tg") == Some("ses_g") && s.sessions["ses_g"] == GUEST
    && "q" in s.requests && IsAnswered(s.requests["q"])
    && forall q :: q in s.requests ==> |q| <= n
  }

  /** One more question of the user takes five points out of reach. */
  lemma UserAsks(s: State, points: int, n: nat, q: Id)
    requires Answered(s, points, n) && points >= QUESTION_COST && |q| == n + 1
    ensures q !in s.requests && Answered(CreateRequest(s, "tu", q, [], 1, true, "", 0).0, points - QUESTION_COST, n + 1)
  {
    var r := NewRequest("ses_u", USER, true, "", [], 1, 0);
    var t := s.(requests := s.requests[q := r], queue := s.queue + [q]);
    assert q !in s.requests;
    assert InputSize([]) == 0;
    NothingQueued(t, 0);
    assert CreateRequest(s, "tu", q, [], 1, true, "", 0).0 == t;
    HeldStep(s, q, r, "u");
  }

  lemma AskOne(ops: seq<Op>, points: int, n: nat) returns (longer: seq<Op>)
    requires ValidRun(EMPTY, ops) && Answered(Run(EMPTY, ops), points, n) && points >= QUESTION_COST
    ensures ValidRun(EMPTY, longer) && Answered(Run(EMPTY, longer), points - QUESTION_COST, n + 1)
  {
    var q := seq(n + 1, _ => 'x');
    UserAsks(Run(EMPTY, ops), points, n, q);
    longer := Then(ops, DoCreate("tu", q, [], 1, true, 0));
  }

  lemma {:induction false} AskAll(ops: seq<Op>, k: nat, n: nat) returns (longer: seq<Op>)
    requires ValidRun(EMPTY, ops) && Answered(Run(EMPTY, ops), k * QUESTION_COST, n)
    ensures ValidRun(EMPTY, longer) && Answered(Run(EMPTY, longer), 0, n + k)
    decreases k
  {
    if k == 0 {
      longer := ops;
    } else {
      longer := AskOne(ops, k * QUESTION_COST, n);
      longer := AskAll(longer, k - 1, n + 1);
    }
  }

  const ANSWER := Fragment("f", "ses_u", 1, "x", 0)

  /** The one character fills the answer, so the question is completed and the user paid. */
  function HasAnswered(): State {
    var r := Holding().requests["q"];
    Holding().(requests := map["q" := CompleteRequest(AppendFragment(r, ANSWER), Length, 0)], active := map[],
             ledger := [Entry("u", "", SignupGrant, SIGNUP_GRANT), Entry("u", "q", AnswerReward, BASE_ANSWER_REWARD)])
  }

  lemma AnswerIsStored()
    ensures SubmitFragment(Holding(), "ses_u", 1, "x", "f", 0).0 == HasAnswered()
  {
    var s := Holding();
    AnswerAppend([], ANSWER);
    assert [] + [ANSWER] == [ANSWER] && AnswerText([]) == "" && AnswerText([ANSWER]) == "x";
    SubmitIs(s, "ses_u", 1, "x", "f", 0);
    assert Accepts(s, "ses_u", 1, "x");
    CommitIs(s, "q", ANSWER);
  }

  lemma UserIsPaid()
    ensures Answered(HasAnswered(), 6 * QUESTION_COST, 1)
  {
    UserHasPoints();
  }

  lemma UserHasPoints()
    ensures Spendable(HasAnswered(), "u") == 6 * QUESTION_COST
  {
    var s := HasAnswered();
    TotalAppend([], Entry("u", "", SignupGrant, SIGNUP_GRANT), "u");
    TotalAppend([Entry("u", "", SignupGrant, SIGNUP_GRANT)], Entry("u", "q", AnswerReward, BASE_ANSWER_REWARD), "u");
    assert [] + [Entry("u", "", SignupGrant, SIGNUP_GRANT)] == [Entry("u", "", SignupGrant, SIGNUP_GRANT)];
    SumZero(s.requests, HeldFor("u"));
  }

  lemma UserAnswers() returns (ops: seq<Op>)
    ensures ValidRun(EMPTY, ops) && Run(EMPTY, ops) == HasAnswered()
  {
    ops := UserHolds();
    AnswerIsStored();
    ops := Then(ops, DoSubmit("ses_u", 1, "x", "f", 0));
  }

  lemma DislikeIsTaken(s: State, n: nat)
    requires Answered(s, 0, n)
    ensures MayReact(s, "tg", "q", Dislike, 0) && IsTerminal(s.requests["q"].status)
    ensures Rewarded(s.requests["q"].responder) == Some("u") && s.requests["q"].reaction == Neutral
    ensures React(s, "tg", "q", Dislike, 0).0.users == s.users
  {
  }

  /** The guest's dislike is accepted and costs more than nothing. */
  lemma DislikeCounts(s: State, n: nat)
    requires Answered(s, 0, n)
    ensures var t := Step(s, DoReact("tg", "q", Dislike, 0)); "u" in t.users && BalanceOf(t, "u").available < 0
  {
    DislikeIsTaken(s, n);
    ReactStep(s, DoReact("tg", "q", Dislike, 0), "u");
  }

  /** A run that overdraws the user: it answers a question, spends everything it has on questions of its own, and
      then its answer is disliked. */
  lemma DislikeOverdraws() returns (ops: seq<Op>)
    ensures ValidRun(EMPTY, ops) && "u" in Run(EMPTY, ops).users && BalanceOf(Run(EMPTY, ops), "u").available < 0
  {
    ops := UserAnswers();
    UserIsPaid();
    ops := AskAll(ops, 6, 1);
    DislikeCounts(Run(EMPTY, ops), 7);
    ops := Then(ops, DoReact("tg", "q", Dislike, 0));
  }
}
