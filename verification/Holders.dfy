/** Who may hold a request, in terms of what sessions are and what they said: the recorded holder is the session as it
    is, its account is the one that is paid, and nobody is given a question of a kind it has last refused. */
module Holders {
  import opened Sequences
  import opened Domain
  import opened ServiceSpec
  import opened RequestRules
  import opened ServiceInvariant
  import opened ServiceOperations
  import opened ServiceTheorems
  import opened FragmentOrigin

  lemma EveryStepKeeps(s: State, op: Op)
    requires Enabled(s, op)
    ensures HoldersStay(s, Step(s, op))
    ensures !op.DoMarkAvailable? && !op.DoUnregister? ==> Step(s, op).acceptAi == s.acceptAi
    ensures !SignsIn(op) ==> SameSessions(s, Step(s, op))
  {
    if op.DoSubmit? {
      SubmitLowersNothing(s, op.session, op.clientSeq, op.text, op.fragment, op.now);
    } else {
      StepKeeps(s, op);
    }
  }

  // ---------------------------------------------------------------- sessions

  /** The session a sign-in opens: a human's for an account or a guest, a guest's persona session otherwise. */
  function Opened(op: Op): Session
    requires SignsIn(op)
  {
    match op
    case DoRegister(user, _, _) => Session(user, false, Human)
    case DoLogin(user, _, _) => Session(user, false, Human)
    case DoGuest(_, _) => Session("", true, Human)
    case DoPersona(_, _) => Session("", true, AiPersona)
  }

  /** Who a token stands for: the session of the sign-in that handed it out. */
  ghost function SignedIn(ops: seq<Op>, token: Id): Option<(Id, Session)> {
    if ops == [] then None
    else
      var n := |ops| - 1;
      if SignsIn(ops[n]) && ops[n].token == token then Some((ops[n].session, Opened(ops[n]))) else SignedIn(ops[..n], token)
  }

  /** In every run a token is good exactly if a sign-in handed it out, for the session opened then. */
  lemma {:induction false} TokensAreSignIns(ops: seq<Op>, token: Id)
    requires ValidRun(EMPTY, ops)
    ensures var s := Run(EMPTY, ops);
            match SignedIn(ops, token)
            case None => SessionOf(s, token) == None && token !in s.tokens
            case Some((id, info)) => SessionOf(s, token) == Some(id) && s.sessions[id] == info
    decreases |ops|
  {
    if ops != [] {
      var n := |ops| - 1;
      TokensAreSignIns(ops[..n], token);
      if SignsIn(ops[n]) {
        SignInOpens(Run(EMPTY, ops[..n]), ops[n]);
      } else {
        EveryStepKeeps(Run(EMPTY, ops[..n]), ops[n]);
      }
    }
  }

  lemma SignInOpens(s: State, op: Op)
    requires SignsIn(op)
    ensures Step(s, op).tokens == s.tokens[op.token := op.session] && Step(s, op).sessions == s.sessions[op.session := Opened(op)]
  {
  }

  // ---------------------------------------------------------------- the recorded holder

  /** In every run, whoever holds or answered a request is recorded as it is: the fallback of that request, or a known
      session with its own account, guest flag and kind. */
  lemma {:induction false} HolderInEveryRun(ops: seq<Op>, q: Id)
    requires ValidRun(EMPTY, ops) && q in Run(EMPTY, ops).requests
    ensures HolderOk(Run(EMPTY, ops).sessions, q, Run(EMPTY, ops).requests[q].responder)
    decreases |ops|
  {
    var n := |ops| - 1;
    var s, t := Run(EMPTY, ops[..n]), Run(EMPTY, ops);
    EveryStepKeeps(s, ops[n]);
    if !t.requests[q].responder.Nobody? && SameHolder(s, t, q) {
      HolderInEveryRun(ops[..n], q);
      SessionsStay(ops);
    }
  }

  lemma SessionsStay(ops: seq<Op>)
    requires ValidRun(EMPTY, ops) && ops != []
    ensures var s, t := Run(EMPTY, ops[..|ops| - 1]), Run(EMPTY, ops);
            forall id :: id in s.sessions ==> id in t.sessions && t.sessions[id] == s.sessions[id]
  {
    InvariantInEveryRun(ops[..|ops| - 1]);
    StepSound(Run(EMPTY, ops[..|ops| - 1]), ops[|ops| - 1]);
  }

  /** The session that wrote the answer has the account `u`. */
  ghost predicate WrittenBy(s: State, q: Id, u: Id)
    requires q in s.requests
  {
    var fragments := s.requests[q].fragments;
    fragments != [] && fragments[0].session in s.sessions && !s.sessions[fragments[0].session].guest
    && s.sessions[fragments[0].session].user == u
  }

  /** The completed answers a user is paid for are exactly those written by sessions of its account. */
  lemma PaidToTheWriter(ops: seq<Op>, q: Id, u: Id)
    requires ValidRun(EMPTY, ops) && q in Run(EMPTY, ops).requests && u in Run(EMPTY, ops).users
    ensures var s := Run(EMPTY, ops);
            AnsweredBy(s.requests[q], u) <==> s.requests[q].completedAt.Some? && WrittenBy(s, q, u)
  {
    InvariantInEveryRun(ops);
    HolderInEveryRun(ops, q);
    WriterIsHolder(Run(EMPTY, ops), q, u);
  }

  lemma WriterIsHolder(s: State, q: Id, u: Id)
    requires RosterOk(s) && q in s.requests && RequestOk(s.requests[q]) && HolderOk(s.sessions, q, s.requests[q].responder)
    requires u in s.users
    ensures AnsweredBy(s.requests[q], u) <==> s.requests[q].completedAt.Some? && WrittenBy(s, q, u)
  {
    var r := s.requests[q];
    if r.fragments != [] {
      assert r.fragments[0] in r.fragments;
      FallbackIsNoSession(s, q);
      assert r.responder.session in s.sessions ==> SessionOk(s.users, r.responder.session, s.sessions[r.responder.session]);
    }
  }

  // ---------------------------------------------------------------- preferences

  /** What a responder last said about questions of AI personas: the value of its last offer made while it was
      registered, forgotten when it goes away. */
  ghost function Preference(ops: seq<Op>, a: Id): Option<bool> {
    if ops == [] then None
    else
      var n := |ops| - 1;
      if ops[n].DoMarkAvailable? && ops[n].session == a && a in Run(EMPTY, ops[..n]).responders then Some(ops[n].acceptAi)
      else if ops[n].DoUnregister? && ops[n].session == a then None
      else Preference(ops[..n], a)
  }

  lemma MarkStores(s: State, b: Id, accept: bool, now: int)
    ensures MarkAvailable(s, b, accept, now).0.acceptAi == if b in s.responders then s.acceptAi[b := accept] else s.acceptAi
  {
    MarkKeeps(s, b, accept, now);
  }

  lemma UnregisterForgets(s: State, b: Id, now: int)
    ensures UnregisterResponder(s, b, now).acceptAi == s.acceptAi - {b}
  {
    UnregisterKeeps(s, b, now);
  }

  /** In every run the stored preferences are what the responders last said. */
  lemma {:induction false} PreferenceIsStored(ops: seq<Op>, a: Id)
    requires ValidRun(EMPTY, ops)
    ensures a in Run(EMPTY, ops).acceptAi <==> Preference(ops, a).Some?
    ensures a in Run(EMPTY, ops).acceptAi ==> Preference(ops, a) == Some(Run(EMPTY, ops).acceptAi[a])
    decreases |ops|
  {
    if ops != [] {
      var n := |ops| - 1;
      var s, op := Run(EMPTY, ops[..n]), ops[n];
      PreferenceIsStored(ops[..n], a);
      if op.DoMarkAvailable? {
        MarkStores(s, op.session, op.acceptAi, op.now);
      } else if op.DoUnregister? {
        UnregisterForgets(s, op.session, op.now);
      } else {
        EveryStepKeeps(s, op);
      }
    }
  }

  /** No step of any run makes a responder the holder of a persona's question when the responder has last refused such
      questions. */
  lemma RefusalIsRespected(ops: seq<Op>, q: Id)
    requires ValidRun(EMPTY, ops) && ops != [] && q in Run(EMPTY, ops).requests
    requires var r := Run(EMPTY, ops).requests[q];
             r.ask.kind == AiPersona && r.responder.Responder? && r.responder != Responder("fallback_" + q, "", true, Fallback)
    requires var s := Run(EMPTY, ops[..|ops| - 1]);
             q in s.requests ==> s.requests[q].responder != Run(EMPTY, ops).requests[q].responder
    ensures Preference(ops, Run(EMPTY, ops).requests[q].responder.session) != Some(false)
  {
    var s, t := Run(EMPTY, ops[..|ops| - 1]), Run(EMPTY, ops);
    var a := t.requests[q].responder.session;
    EveryStepKeeps(s, ops[|ops| - 1]);
    assert !SameHolder(s, t, q);
    InvariantInEveryRun(ops);
    NoSessionIsFallback(t, a);
    PreferenceIsStored(ops, a);
  }

  lemma NoSessionIsFallback(s: State, a: Id)
    requires RosterOk(s)
    ensures a in s.sessions ==> s.sessions[a].kind != Fallback
  {
    assert a in s.sessions ==> SessionOk(s.users, a, s.sessions[a]);
  }
}
