/** Who holds, answers and is paid for a request, in every interleaving of the distributed backend. */
module ProtocolOwners {
  import opened Sequences
  import opened Domain
  import opened Protocol
  import opened ProtocolInvariant
  import opened ProtocolProofs
  import opened ProtocolEffects
  import opened ProtocolTheorems

  // ---------------------------------------------------------------- the recorded holder

  function Fallback(q: Id): Responder {
    Responder("fallback_" + q, "", true, Domain.Fallback)
  }

  /** The holder of row `q` is recorded as it is: the fallback of `q`, and only where anybody may answer and AI is welcome,
      or a known session with its own account, guest flag and kind. */
  ghost predicate RecordedAsIs(sessions: map<Id, Session>, q: Id, r: Row) {
    || r.responder.Nobody?
    || (r.responder == Fallback(q) && r.ask.preferred == "" && r.ask.allowAi)
    || (r.responder.session in sessions && r.responder == Holder(r.responder.session, sessions[r.responder.session]))
  }

  lemma SessionsStay(s: State, e: Action)
    requires Inv(s) && Enabled(s, e)
    ensures forall id :: id in s.sessions ==> id in Next(s, e).sessions && Next(s, e).sessions[id] == s.sessions[id]
    ensures forall id :: id in Next(s, e).sessions && id !in s.sessions ==> "ses_" <= id
  {
    if e.Create? {
      CreateExactly(s, e.q, e.ask, e.now);
    } else if !e.AddSession? {
      StepExactly(s, e);
    }
  }

  lemma StepRecords(s: State, e: Action, q: Id)
    requires Inv(s) && Enabled(s, e) && q in Next(s, e).rows
    requires q in s.rows ==> RecordedAsIs(s.sessions, q, s.rows[q])
    ensures RecordedAsIs(Next(s, e).sessions, q, Next(s, e).rows[q])
  {
    SessionsStay(s, e);
    if e.Create? {
      CreateExactly(s, e.q, e.ask, e.now);
    } else if !e.AddSession? {
      StepExactly(s, e);
      RowsRecord(s, e, Next(s, e), q);
    }
  }

  lemma RowsRecord(s: State, e: Action, t: State, q: Id)
    requires Enabled(s, e) && !e.AddSession? && !e.Create? && e.q in s.rows && Exactly(s, e, t)
    requires q in t.rows && (q in s.rows ==> RecordedAsIs(s.sessions, q, s.rows[q]))
    ensures RecordedAsIs(t.sessions, q, t.rows[q])
  {
    if e.q == q {
      RowRecords(s, e);
    }
  }

  lemma RowRecords(s: State, e: Action)
    requires Enabled(s, e) && !e.AddSession? && !e.Create? && e.q in s.rows && RecordedAsIs(s.sessions, e.q, s.rows[e.q])
    ensures RecordedAsIs(s.sessions, e.q, RowAfter(s, e))
  {
  }

  /** In every interleaving every holder is recorded as it is. */
  lemma {:induction false} HolderInEveryRun(es: seq<Action>, q: Id)
    requires ValidRun(EMPTY, es) && q in Run(EMPTY, es).rows
    ensures RecordedAsIs(Run(EMPTY, es).sessions, q, Run(EMPTY, es).rows[q])
    decreases |es|
  {
    if es != [] {
      var n := |es| - 1;
      InvariantInEveryRun(es[..n]);
      if q in Run(EMPTY, es[..n]).rows {
        HolderInEveryRun(es[..n], q);
      }
      StepRecords(Run(EMPTY, es[..n]), es[n], q);
    }
  }

  lemma {:induction false} SessionIds(es: seq<Action>, id: Id)
    requires ValidRun(EMPTY, es) && id in Run(EMPTY, es).sessions
    ensures "ses_" <= id
    decreases |es|
  {
    if es != [] {
      var n := |es| - 1;
      InvariantInEveryRun(es[..n]);
      SessionsStay(Run(EMPTY, es[..n]), es[n]);
      if id in Run(EMPTY, es[..n]).sessions {
        SessionIds(es[..n], id);
      }
    }
  }

  /** No step takes a request from one responder and gives it to another: it changes hands only by being queued first. */
  lemma OnlyQueuedIsTaken(s: State, e: Action, q: Id)
    requires Inv(s) && Enabled(s, e) && q in s.rows && s.rows[q].responder.Responder?
    ensures q in Next(s, e).rows && (Next(s, e).rows[q].responder.Responder? ==> Next(s, e).rows[q].responder == s.rows[q].responder)
  {
    assert RowOk(s.rows[q]);
    if e.Create? {
      CreateExactly(s, e.q, e.ask, e.now);
    } else if !e.AddSession? {
      StepExactly(s, e);
      HeldStaysHeld(s, e, Next(s, e), q);
    }
  }

  lemma HeldStaysHeld(s: State, e: Action, t: State, q: Id)
    requires Enabled(s, e) && !e.AddSession? && !e.Create? && e.q in s.rows && Exactly(s, e, t)
    requires q in s.rows && s.rows[q].responder.Responder? && s.rows[q].status != Queued
    ensures q in t.rows && (t.rows[q].responder.Responder? ==> t.rows[q].responder == s.rows[q].responder)
  {
  }

  lemma FallbackIsNoSession(es: seq<Action>, q: Id)
    requires ValidRun(EMPTY, es)
    ensures "fallback_" + q !in Run(EMPTY, es).sessions
  {
    forall id | id in Run(EMPTY, es).sessions ensures id != "fallback_" + q {
      SessionIds(es, id);
      assert "ses_"[0] == id[0];
    }
  }

  // ---------------------------------------------------------------- single owner

  /** The account of the session that wrote the answer, if it has one. */
  ghost function Writer(s: State, r: Row): Option<Id> {
    if r.fragments != [] && r.fragments[0].session in s.sessions && !s.sessions[r.fragments[0].session].guest
    then Some(s.sessions[r.fragments[0].session].user) else None
  }

  /** In every interleaving: an answer exists exactly in the streaming and completed states and comes from one session,
      with ordinals 1..n.  The account that asked is charged once, at the first fragment, and nobody else.  The account
      whose session wrote the answer is rewarded once, when it is completed, and nobody else. */
  lemma SingleOwner(es: seq<Action>, q: Id)
    requires ValidRun(EMPTY, es) && q in Run(EMPTY, es).rows
    ensures var s := Run(EMPTY, es);
            var r := s.rows[q];
            && (r.fragments == [] <==> r.status == Queued || r.status == Assigned || r.status == Abandoned)
            && (forall i :: 0 <= i < |r.fragments| ==> r.fragments[i].ordinal == i + 1 && r.fragments[i].session == r.fragments[0].session)
            && Count(s.ledger, q, QuestionCharge) == (if r.fragments != [] && !r.ask.guest then 1 else 0)
            && Count(s.ledger, q, AnswerReward) == (if r.completedAt.Some? && Writer(s, r).Some? then 1 else 0)
            && (forall e :: e in s.ledger && e.request == q && e.kind == AnswerReward ==> Writer(s, r) == Some(e.user) && e.delta == 10)
            && (forall e :: e in s.ledger && e.request == q && e.kind == QuestionCharge ==> e.user == r.ask.requester && e.delta == -5)
  {
    var s := Run(EMPTY, es);
    InvariantInEveryRun(es);
    HolderInEveryRun(es, q);
    FallbackIsNoSession(es, q);
    assert RowOk(s.rows[q]);
    WriterIsHolder(s, q);
    OwnedOnce(s, q);
  }

  lemma WriterIsHolder(s: State, q: Id)
    requires q in s.rows && RowOk(s.rows[q]) && RecordedAsIs(s.sessions, q, s.rows[q]) && "fallback_" + q !in s.sessions
    requires forall id :: id in s.sessions ==> (s.sessions[id].guest <==> s.sessions[id].user == "")
    ensures var r := s.rows[q];
            r.fragments != [] ==>
              if RowPaid(r.responder) then Writer(s, r) == Some(r.responder.user) else Writer(s, r) == None
  {
  }

  lemma OwnedOnce(s: State, q: Id)
    requires q in s.rows && RowOk(s.rows[q]) && LedgerOk(s.rows, s.ledger)
    ensures var r := s.rows[q];
            && Count(s.ledger, q, QuestionCharge) == (if r.fragments != [] && !r.ask.guest then 1 else 0)
            && Count(s.ledger, q, AnswerReward) == (if r.completedAt.Some? && RowPaid(r.responder) then 1 else 0)
            && (forall e :: e in s.ledger && e.request == q && e.kind == AnswerReward ==>
                  r.fragments != [] && RowPaid(r.responder) && e.user == r.responder.user && e.delta == 10)
            && (forall e :: e in s.ledger && e.request == q && e.kind == QuestionCharge ==> e.user == r.ask.requester && e.delta == -5)
  {
    assert Charged(s.rows, q) <==> s.rows[q].fragments != [] && !s.rows[q].ask.guest;
  }

  // ---------------------------------------------------------------- participation

  /** Some run of the script gave `q` to `a` in the course of `es`, by the rules, from what it read about `a`: the preferred
      session only, no persona where AI is refused, no persona and nobody who refuses for a question of a persona. */
  ghost predicate Chosen(es: seq<Action>, q: Id, ask: Ask, a: Id) {
    exists i :: 0 <= i < |es| && ChosenAt(es, i, q, ask, a)
  }

  predicate ChosenAt(es: seq<Action>, i: nat, q: Id, ask: Ask, a: Id)
    requires i < |es|
  {
    && es[i].RunScript? && es[i].q == q && es[i].session == a
    && (ask.preferred != "" ==> ask.preferred == a)
    && (es[i].kind == AiPersona ==> ask.allowAi)
    && (ask.kind == AiPersona ==> es[i].kind != AiPersona && es[i].acceptsAi)
  }

  lemma StillChosen(es: seq<Action>, q: Id, ask: Ask, a: Id)
    requires es != [] && Chosen(es[..|es| - 1], q, ask, a)
    ensures Chosen(es, q, ask, a)
  {
    var before := es[..|es| - 1];
    var i :| 0 <= i < |before| && ChosenAt(before, i, q, ask, a);
    assert ChosenAt(es, i, q, ask, a);
  }

  lemma ScriptChooses(es: seq<Action>, q: Id, a: Id)
    requires es != [] && ValidRun(EMPTY, es)
    requires var e := es[|es| - 1]; e.RunScript? && e.q == q && e.session == a
    requires var s := Run(EMPTY, es[..|es| - 1]); q in s.rows && !IsTerminal(s.rows[q].status)
    ensures Chosen(es, q, Run(EMPTY, es[..|es| - 1]).rows[q].ask, a)
  {
    var n := |es| - 1;
    var s := Run(EMPTY, es[..n]);
    InvariantInEveryRun(es[..n]);
    RulesRead(s, es[n]);
    assert ChosenAt(es, n, q, s.rows[q].ask, a);
  }

  lemma RulesRead(s: State, e: Action)
    requires Inv(s) && e.RunScript? && Enabled(s, e) && e.q in s.rows && !IsTerminal(s.rows[e.q].status)
    ensures var ask := s.rows[e.q].ask;
            && (ask.preferred != "" ==> ask.preferred == e.session)
            && (e.kind == AiPersona ==> ask.allowAi)
            && (ask.kind == AiPersona ==> e.kind != AiPersona && e.acceptsAi)
  {
    assert RowOk(s.rows[e.q]);
  }

  /** Whoever is about to be paired with a live request was chosen for it. */
  lemma {:induction false} PairsAreChosen(es: seq<Action>, q: Id, a: Id)
    requires ValidRun(EMPTY, es) && Pair(q, a) in Run(EMPTY, es).tasks
    requires q in Run(EMPTY, es).rows && !IsTerminal(Run(EMPTY, es).rows[q].status)
    ensures Chosen(es, q, Run(EMPTY, es).rows[q].ask, a)
    decreases |es|
  {
    if es != [] {
      var n := |es| - 1;
      var s, t := Run(EMPTY, es[..n]), Run(EMPTY, es);
      InvariantInEveryRun(es[..n]);
      RowBefore(s, es[n], q, a);
      if Pair(q, a) in s.tasks {
        PairsAreChosen(es[..n], q, a);
        StillChosen(es, q, s.rows[q].ask, a);
      } else {
        ScriptChooses(es, q, a);
      }
    }
  }

  lemma RowBefore(s: State, e: Action, q: Id, a: Id)
    requires Inv(s) && Enabled(s, e) && Pair(q, a) in Next(s, e).tasks
    requires q in Next(s, e).rows && !IsTerminal(Next(s, e).rows[q].status)
    ensures Pair(q, a) in s.tasks || (e.RunScript? && e.q == q && e.session == a)
    ensures q in s.rows && !IsTerminal(s.rows[q].status) && s.rows[q].ask == Next(s, e).rows[q].ask
  {
    if !e.AddSession? && !e.Create? {
      StepExactly(s, e);
      PairIsOwed(s, e, Next(s, e), q, a);
    }
    assert Pair(q, a) in s.tasks ==> TaskOk(s, Pair(q, a));
    RowOnlyEvolves(s, e, q);
  }

  lemma RowOnlyEvolves(s: State, e: Action, q: Id)
    requires Inv(s) && Enabled(s, e) && q in s.rows
    ensures q in Next(s, e).rows && RowEvolves(s.rows[q], Next(s, e).rows[q])
  {
    StepSound(s, e);
  }

  lemma PairIsOwed(s: State, e: Action, t: State, q: Id, a: Id)
    requires !e.AddSession? && !e.Create? && e.q in s.rows && (e.TryPair? ==> e.session in s.sessions)
    requires Exactly(s, e, t) && Pair(q, a) in t.tasks
    ensures Pair(q, a) in s.tasks || (e.RunScript? && e.q == q && e.session == a)
  {
    assert Pair(q, a) in s.tasks || Pair(q, a) in Owed(s, e);
  }

  /** In every interleaving a session holds or answers only what a run of the script chose it for. */
  lemma {:induction false} HoldersAreChosen(es: seq<Action>, q: Id)
    requires ValidRun(EMPTY, es) && q in Run(EMPTY, es).rows
    requires var holder := Run(EMPTY, es).rows[q].responder; holder.Responder? && holder != Fallback(q)
    ensures var r := Run(EMPTY, es).rows[q]; Chosen(es, q, r.ask, r.responder.session)
    decreases |es|
  {
    if es != [] {
      var n := |es| - 1;
      var s, t := Run(EMPTY, es[..n]), Run(EMPTY, es);
      InvariantInEveryRun(es[..n]);
      NewHolder(s, es[n], q);
      if q in s.rows && s.rows[q].responder == t.rows[q].responder {
        HoldersAreChosen(es[..n], q);
      } else {
        PairsAreChosen(es[..n], q, t.rows[q].responder.session);
      }
      StillChosen(es, q, s.rows[q].ask, t.rows[q].responder.session);
    }
  }

  lemma NewHolder(s: State, e: Action, q: Id)
    requires Inv(s) && Enabled(s, e) && q in Next(s, e).rows
    requires var holder := Next(s, e).rows[q].responder; holder.Responder? && holder != Fallback(q)
    ensures q in s.rows && s.rows[q].ask == Next(s, e).rows[q].ask
    ensures var holder := Next(s, e).rows[q].responder;
            s.rows[q].responder == holder || (Pair(q, holder.session) in s.tasks && s.rows[q].status == Queued)
  {
    if e.Create? {
      CreateExactly(s, e.q, e.ask, e.now);
    } else if !e.AddSession? {
      StepExactly(s, e);
      NewHolderIn(s, e, Next(s, e), q);
    }
    RowOnlyEvolves(s, e, q);
  }

  lemma NewHolderIn(s: State, e: Action, t: State, q: Id)
    requires Enabled(s, e) && !e.AddSession? && !e.Create? && e.q in s.rows && Exactly(s, e, t) && q in t.rows
    ensures q in s.rows
    ensures var holder := t.rows[q].responder;
            holder == Nobody || holder == Fallback(q) || holder == s.rows[q].responder
            || (Pair(q, holder.session) in s.tasks && s.rows[q].status == Queued)
  {
    NewRowHolder(s, e);
  }

  lemma NewRowHolder(s: State, e: Action)
    requires Enabled(s, e) && !e.AddSession? && !e.Create? && e.q in s.rows
    ensures var holder := RowAfter(s, e).responder;
            holder == Nobody || holder == Fallback(e.q) || holder == s.rows[e.q].responder
            || (Pair(e.q, holder.session) in s.tasks && s.rows[e.q].status == Queued)
  {
  }

  /** The script was told what kinds of sessions it had before it. */
  ghost predicate KindsKnown(es: seq<Action>)
    requires ValidRun(EMPTY, es)
  {
    forall i :: 0 <= i < |es| && es[i].RunScript? && es[i].session in Run(EMPTY, es).sessions ==>
      es[i].kind == KindOrHuman(Run(EMPTY, es).sessions[es[i].session].kind)
  }

  /** As long as the script knows the kinds, AI never holds or answers a question that refuses it, no persona a question of
      a persona, and nobody but the preferred session a targeted one, in any interleaving. */
  lemma ParticipationInEveryRun(es: seq<Action>, q: Id)
    requires ValidRun(EMPTY, es) && KindsKnown(es) && q in Run(EMPTY, es).rows
    ensures var r := Run(EMPTY, es).rows[q];
            && (r.ask.preferred != "" && r.responder.Responder? ==> r.responder.session == r.ask.preferred)
            && (r.responder == Fallback(q) ==> r.ask.allowAi)
            && (r.responder.Responder? && r.responder.kind == AiPersona ==> r.ask.allowAi && r.ask.kind != AiPersona)
  {
    HolderInEveryRun(es, q);
    FallbackIsNoSession(es, q);
    var r := Run(EMPTY, es).rows[q];
    if r.responder.Responder? && r.responder != Fallback(q) {
      HoldersAreChosen(es, q);
      ChosenByKind(es, q, r);
    }
  }

  lemma ChosenByKind(es: seq<Action>, q: Id, r: Row)
    requires ValidRun(EMPTY, es) && KindsKnown(es)
    requires r.responder.Responder? && r.responder != Fallback(q) && Chosen(es, q, r.ask, r.responder.session)
    requires RecordedAsIs(Run(EMPTY, es).sessions, q, r)
    ensures r.responder.kind == AiPersona ==> r.ask.allowAi && r.ask.kind != AiPersona
    ensures r.ask.preferred != "" ==> r.responder.session == r.ask.preferred
  {
    var i :| 0 <= i < |es| && ChosenAt(es, i, q, r.ask, r.responder.session);
  }

  // ---------------------------------------------------------------- where participation fails

  const PERSONA := Session("", true, AiPersona)
  const HUMANS_ONLY := Ask("", "ses_g", true, Human, false, "", [], 10)

  /** A question of this kind stands in the queue, with its keys, and a persona has signed in. */
  lemma HumansAreWanted() returns (es: seq<Action>)
    ensures ValidRun(EMPTY, es)
    ensures var s := Run(EMPTY, es);
            s.sessions == map["ses_a" := PERSONA] && s.rows == map["req" := NewRow(HUMANS_ONLY, 0)] && s.queue == ["req"]
            && s.routing == map["req" := Route(Human, false, "")]
  {
    es := Then([], AddSession("ses_a", PERSONA));
    es := Then(es, Create("req", HUMANS_ONLY, 0));
    assert Announce("req") in Run(EMPTY, es).tasks;
    es := Then(es, SetRouting("req"));
    assert Enqueue("req") in Run(EMPTY, es).tasks;
    es := Then(es, PushQueue("req"));
  }

  /** A run in which a persona gets a question that refuses AI: its presence lapsed, so the script dropped its kind, and
      taking it for a human gave it the question. */
  lemma ForgottenKind() returns (es: seq<Action>)
    ensures ValidRun(EMPTY, es)
    ensures var s := Run(EMPTY, es);
            && "req" in s.rows && !s.rows["req"].ask.allowAi
            && s.rows["req"].responder == Responder("ses_a", "", true, AiPersona)
  {
    es := HumansAreWanted();
    es := Then(es, RunScript("req", "ses_a", Human, true));
    assert Pair("req", "ses_a") in Run(EMPTY, es).tasks;
    es := Then(es, TryPair("req", "ses_a", 0));
  }
}
