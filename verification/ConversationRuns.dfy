/** Persona conversations in runs of the service, where anything else may happen between the turns. */
module ConversationRuns {
  import opened Sequences
  import opened Domain
  import opened ServiceSpec
  import opened RequestRules
  import opened ServiceInvariant
  import opened ServiceSteps
  import opened ServiceOperations
  import opened Conversation

  /** `r` was completed by the human of the exchange, with its answer. */
  ghost predicate AnsweredAs(r: Request, e: Exchange) {
    && r.status == Completed && r.responder.Responder? && r.responder.kind == Human && r.responder.session == e.responder
    && e.responder != "" && e.answer == TrimSpace(AnswerText(r.fragments)) && e.answer != ""
  }

  /** `next` is the follow-up that the exchange leads to. */
  ghost predicate FollowsUp(ask: Ask, next: Ask, e: Exchange) {
    next.preferred == e.responder && next.messages == ask.messages + e.Messages()
  }

  /** The requests of a conversation so far and the exchanges between them. */
  ghost predicate Talk(s: State, turns: seq<Id>, exchanges: seq<Exchange>) {
    && |turns| == |exchanges| + 1
    && (forall i :: 0 <= i < |turns| ==> turns[i] in s.requests)
    && |s.requests[turns[0]].ask.messages| == 1 && s.requests[turns[0]].ask.messages[0].role == "user"
    && (forall i :: 0 <= i < |exchanges| ==> AnsweredAs(s.requests[turns[i]], exchanges[i]))
    && (forall i :: 0 <= i < |exchanges| ==> FollowsUp(s.requests[turns[i]].ask, s.requests[turns[i + 1]].ask, exchanges[i]))
  }

  /** What was said stays said. */
  lemma TalkPersists(s: State, t: State, turns: seq<Id>, exchanges: seq<Exchange>)
    requires Talk(s, turns, exchanges) && Advances(s, t)
    ensures Talk(t, turns, exchanges)
  {
    forall i | 0 <= i < |turns|
      ensures turns[i] in t.requests && t.requests[turns[i]].ask == s.requests[turns[i]].ask
      ensures i < |exchanges| ==> AnsweredAs(t.requests[turns[i]], exchanges[i])
    {
      assert Evolves(s.requests[turns[i]], t.requests[turns[i]]);
    }
  }

  lemma EnqueuedKeepsAsk(s: State, q: Id, r: Request, now: int)
    requires Inv(s.(requests := s.requests[q := r], queue := s.queue + [q]))
    ensures var t := TryAssign(s.(requests := s.requests[q := r], queue := s.queue + [q]), now);
            q in t.requests && t.requests[q].ask == r.ask
  {
    var s' := s.(requests := s.requests[q := r], queue := s.queue + [q]);
    TryAssignSound(s', now);
    assert Evolves(s'.requests[q], TryAssign(s', now).requests[q]);
  }

  /** The follow-up is stored as it was posted. */
  lemma TargetedIsStored(s: State, token: Id, q: Id, messages: seq<Message>, maxOutput: int, preferred: Id, now: int)
    requires Inv(s) && q !in s.requests && CreateTargetedRequest(s, token, q, messages, maxOutput, preferred, now).1.Ok?
    ensures var t := CreateTargetedRequest(s, token, q, messages, maxOutput, preferred, now).0;
            q in t.requests && t.requests[q].ask.preferred == preferred && t.requests[q].ask.messages == messages
  {
    var id := SessionOf(s, token).value;
    var r := NewRequest(id, s.sessions[id], false, preferred, messages, maxOutput, now);
    NewRecord(s.users, id, s.sessions[id], false, preferred, messages, maxOutput, now);
    EnqueueSound(s, q, r);
    EnqueuedKeepsAsk(s, q, r, now);
  }

  lemma TalkExtends(t: State, turns: seq<Id>, exchanges: seq<Exchange>, e: Exchange, q: Id)
    requires Talk(t, turns, exchanges) && AnsweredAs(t.requests[turns[|turns| - 1]], e)
    requires q in t.requests && FollowsUp(t.requests[turns[|turns| - 1]].ask, t.requests[q].ask, e)
    ensures Talk(t, turns + [q], exchanges + [e])
  {
    var turns', exchanges' := turns + [q], exchanges + [e];
    forall i | 0 <= i < |exchanges'|
      ensures AnsweredAs(t.requests[turns'[i]], exchanges'[i])
    {
      assert i < |exchanges| ==> turns'[i] == turns[i] && exchanges'[i] == exchanges[i];
    }
    forall i | 0 <= i < |exchanges'|
      ensures FollowsUp(t.requests[turns'[i]].ask, t.requests[turns'[i + 1]].ask, exchanges'[i])
    {
      assert i < |exchanges| ==> turns'[i] == turns[i] && turns'[i + 1] == turns[i + 1] && exchanges'[i] == exchanges[i];
    }
  }

  lemma AnswerStays(s: State, t: State, q: Id, e: Exchange)
    requires Advances(s, t) && q in s.requests && AnsweredAs(s.requests[q], e)
    ensures q in t.requests && AnsweredAs(t.requests[q], e) && t.requests[q].ask == s.requests[q].ask
  {
    assert Evolves(s.requests[q], t.requests[q]);
  }

  lemma TalkGrows(s: State, t: State, turns: seq<Id>, exchanges: seq<Exchange>, e: Exchange, q: Id)
    requires Talk(s, turns, exchanges) && Advances(s, t) && AnsweredAs(s.requests[turns[|turns| - 1]], e)
    requires q in t.requests && FollowsUp(s.requests[turns[|turns| - 1]].ask, t.requests[q].ask, e)
    ensures Talk(t, turns + [q], exchanges + [e])
  {
    TalkPersists(s, t, turns, exchanges);
    AnswerStays(s, t, turns[|turns| - 1], e);
    TalkExtends(t, turns, exchanges, e, q);
  }

  // ---------------------------------------------------------------- one responder

  lemma PreferredHolds(s: State, q: Id)
    requires RequestsOk(s) && q in s.requests && s.requests[q].responder.Responder?
    ensures s.requests[q].ask.preferred != "" ==> s.requests[q].responder.session == s.requests[q].ask.preferred
  {
    assert RequestOk(s.requests[q]);
  }

  /** In every reachable state, all turns of a conversation that anyone holds or has answered have the same responder. */
  lemma {:induction false} SameResponder(s: State, turns: seq<Id>, exchanges: seq<Exchange>, i: nat)
    requires RequestsOk(s) && Talk(s, turns, exchanges) && i < |turns| && exchanges != []
    requires s.requests[turns[i]].responder.Responder?
    ensures s.requests[turns[i]].responder.session == exchanges[0].responder
    decreases i
  {
    if i > 0 {
      PreferredHolds(s, turns[i]);
      assert FollowsUp(s.requests[turns[i - 1]].ask, s.requests[turns[i]].ask, exchanges[i - 1]);
      assert AnsweredAs(s.requests[turns[i - 1]], exchanges[i - 1]);
      SameResponder(s, turns, exchanges, i - 1);
    } else {
      assert AnsweredAs(s.requests[turns[0]], exchanges[0]);
    }
  }

  // ---------------------------------------------------------------- the transcript

  /** The answers of the turns before `i` are in their places. */
  ghost predicate Quotes(s: State, turns: seq<Id>, messages: seq<Message>, i: nat)
    requires i < |turns| && |messages| == 2 * i + 1 && forall k :: 0 <= k < |turns| ==> turns[k] in s.requests
  {
    forall j :: 0 <= j < i ==> messages[2 * j + 1].content == TrimSpace(AnswerText(s.requests[turns[j]].fragments))
  }

  lemma {:induction false} TranscriptShape(s: State, turns: seq<Id>, exchanges: seq<Exchange>, i: nat)
    requires Talk(s, turns, exchanges) && i < |turns|
    ensures |s.requests[turns[i]].ask.messages| == 2 * i + 1 && Alternates(s.requests[turns[i]].ask.messages)
    decreases i
  {
    if i > 0 {
      TranscriptShape(s, turns, exchanges, i - 1);
      AlternationGoesOn(s.requests[turns[i - 1]].ask.messages, exchanges[i - 1]);
      assert FollowsUp(s.requests[turns[i - 1]].ask, s.requests[turns[i]].ask, exchanges[i - 1]);
    }
  }

  lemma {:induction false} TranscriptContinues(s: State, turns: seq<Id>, exchanges: seq<Exchange>, j: nat, i: nat)
    requires Talk(s, turns, exchanges) && j <= i < |turns|
    ensures s.requests[turns[j]].ask.messages <= s.requests[turns[i]].ask.messages
    decreases i
  {
    if j < i {
      TranscriptContinues(s, turns, exchanges, j, i - 1);
      assert FollowsUp(s.requests[turns[i - 1]].ask, s.requests[turns[i]].ask, exchanges[i - 1]);
    }
  }

  /** An answer is quoted in the follow-up and in everything after it. */
  lemma AnswerIsQuoted(s: State, turns: seq<Id>, exchanges: seq<Exchange>, j: nat, i: nat)
    requires Talk(s, turns, exchanges) && j < i < |turns|
    ensures |s.requests[turns[i]].ask.messages| == 2 * i + 1
    ensures s.requests[turns[i]].ask.messages[2 * j + 1].content == TrimSpace(AnswerText(s.requests[turns[j]].fragments))
  {
    TranscriptShape(s, turns, exchanges, i);
    TranscriptShape(s, turns, exchanges, j);
    TranscriptContinues(s, turns, exchanges, j + 1, i);
    assert FollowsUp(s.requests[turns[j]].ask, s.requests[turns[j + 1]].ask, exchanges[j]);
    assert AnsweredAs(s.requests[turns[j]], exchanges[j]);
  }

  /** Turn `i` asks with the whole conversation before it: alternating, one message longer than two per earlier
      turn, with each earlier answer in its place, and continuing the transcript of every earlier turn. */
  lemma FullTranscript(s: State, turns: seq<Id>, exchanges: seq<Exchange>, i: nat)
    requires Talk(s, turns, exchanges) && i < |turns|
    ensures var messages := s.requests[turns[i]].ask.messages;
            && |messages| == 2 * i + 1 && Alternates(messages) && Quotes(s, turns, messages, i)
            && (forall j :: 0 <= j <= i ==> s.requests[turns[j]].ask.messages <= messages)
  {
    TranscriptShape(s, turns, exchanges, i);
    forall j | 0 <= j <= i
      ensures s.requests[turns[j]].ask.messages <= s.requests[turns[i]].ask.messages
    {
      TranscriptContinues(s, turns, exchanges, j, i);
    }
    forall j | 0 <= j < i
      ensures s.requests[turns[i]].ask.messages[2 * j + 1].content == TrimSpace(AnswerText(s.requests[turns[j]].fragments))
    {
      AnswerIsQuoted(s, turns, exchanges, j, i);
    }
  }

  // ---------------------------------------------------------------- conversations over a run

  /** What the loop's poll finds in a state. */
  function PollOf(s: State, q: Id, late: bool): Poll {
    if q !in s.requests then Missing
    else
      var r := s.requests[q];
      if r.responder.Responder? then Seen(r.status, r.responder.kind, r.responder.session, AnswerText(r.fragments), late)
      else Seen(r.status, Unset, "", AnswerText(r.fragments), late)
  }

  /** The loop takes a poll for an answer exactly if a human has completed the request with something to say. */
  lemma PollFindsAnswer(s: State, q: Id, late: bool, w: Waited)
    requires w.Answered?
    ensures Wait([PollOf(s, q, late)]) == w
        <==> q in s.requests && AnsweredAs(s.requests[q], Exchange(w.responder, w.answer, ""))
  {
    var p := PollOf(s, q, late);
    FirstDecides([p], if Waits(p) then 1 else 0);
  }

  /** One turn of the loop in the run: operations of others while it waits for the answer, which is there at the
      end of them; more operations while the next question is thought up; the follow-up; and operations after it, up to
      and with the resumption of the responder. */
  datatype Stage = Stage(waiting: seq<Op>, thinking: seq<Op>, exchange: Exchange, token: Id, request: Id, maxOutput: int, now: int,
                         settling: seq<Op>)

  ghost function Polled(s: State, st: Stage): State {
    Run(s, st.waiting)
  }

  ghost function Ready(s: State, st: Stage): State {
    Run(Polled(s, st), st.thinking)
  }

  ghost function Posted(s: State, messages: seq<Message>, st: Stage): (State, Result<Id>) {
    CreateTargetedRequest(Ready(s, st), st.token, st.request, messages + st.exchange.Messages(), st.maxOutput, st.exchange.responder, st.now)
  }

  /** The stage is one the loop can go through: `last` is the request it waits for, `messages` its transcript. */
  ghost predicate Happens(s: State, last: Id, messages: seq<Message>, st: Stage) {
    && ValidRun(s, st.waiting) && ValidRun(Polled(s, st), st.thinking)
    && last in Polled(s, st).requests && AnsweredAs(Polled(s, st).requests[last], st.exchange)
    && st.request !in Ready(s, st).requests && Posted(s, messages, st).1.Ok?
    && ValidRun(Posted(s, messages, st).0, st.settling)
  }

  /** The state in which the loop starts to wait again. */
  ghost function Settled(s: State, messages: seq<Message>, st: Stage): State {
    Run(Posted(s, messages, st).0, st.settling)
  }

  ghost predicate AllHappen(s: State, last: Id, messages: seq<Message>, stages: seq<Stage>)
    decreases |stages|
  {
    stages == [] ||
    (Happens(s, last, messages, stages[0])
     && AllHappen(Settled(s, messages, stages[0]), stages[0].request, messages + stages[0].exchange.Messages(), stages[1..]))
  }

  ghost function Final(s: State, messages: seq<Message>, stages: seq<Stage>): State
    decreases |stages|
  {
    if stages == [] then s
    else Final(Settled(s, messages, stages[0]), messages + stages[0].exchange.Messages(), stages[1..])
  }

  function Requests(stages: seq<Stage>): seq<Id> {
    seq(|stages|, i requires 0 <= i < |stages| => stages[i].request)
  }

  function Said(stages: seq<Stage>): seq<Exchange> {
    seq(|stages|, i requires 0 <= i < |stages| => stages[i].exchange)
  }

  /** A conversation whose last request is `last`, with the transcript `messages`. */
  ghost predicate TalkUpTo(s: State, turns: seq<Id>, exchanges: seq<Exchange>, last: Id, messages: seq<Message>) {
    Talk(s, turns, exchanges) && last == turns[|turns| - 1] && s.requests[last].ask.messages == messages
  }

  lemma TalkUpToPersists(s: State, t: State, turns: seq<Id>, exchanges: seq<Exchange>, last: Id, messages: seq<Message>)
    requires TalkUpTo(s, turns, exchanges, last, messages) && Advances(s, t)
    ensures TalkUpTo(t, turns, exchanges, last, messages)
  {
    TalkPersists(s, t, turns, exchanges);
    assert Evolves(s.requests[last], t.requests[last]);
  }

  /** What holds when the follow-up of a stage is posted. */
  lemma StageReady(s: State, turns: seq<Id>, exchanges: seq<Exchange>, last: Id, messages: seq<Message>, st: Stage)
    requires Inv(s) && TalkUpTo(s, turns, exchanges, last, messages) && Happens(s, last, messages, st)
    ensures Inv(Ready(s, st)) && TalkUpTo(Ready(s, st), turns, exchanges, last, messages)
    ensures AnsweredAs(Ready(s, st).requests[last], st.exchange)
  {
    RunSound(s, st.waiting);
    RunSound(Polled(s, st), st.thinking);
    TalkUpToPersists(s, Polled(s, st), turns, exchanges, last, messages);
    TalkUpToPersists(Polled(s, st), Ready(s, st), turns, exchanges, last, messages);
    AnswerStays(Polled(s, st), Ready(s, st), last, st.exchange);
  }

  lemma PostGrows(s: State, turns: seq<Id>, exchanges: seq<Exchange>, last: Id, messages: seq<Message>, st: Stage)
    requires Inv(s) && TalkUpTo(s, turns, exchanges, last, messages) && Happens(s, last, messages, st)
    ensures Inv(Posted(s, messages, st).0)
    ensures TalkUpTo(Posted(s, messages, st).0, turns + [st.request], exchanges + [st.exchange], st.request, messages + st.exchange.Messages())
  {
    var ready, e := Ready(s, st), st.exchange;
    StageReady(s, turns, exchanges, last, messages, st);
    CreateSound(ready, st.token, st.request, messages + e.Messages(), st.maxOutput, false, e.responder, st.now);
    TargetedIsStored(ready, st.token, st.request, messages + e.Messages(), st.maxOutput, e.responder, st.now);
    TalkGrows(ready, Posted(s, messages, st).0, turns, exchanges, e, st.request);
  }

  lemma StageGrows(s: State, turns: seq<Id>, exchanges: seq<Exchange>, last: Id, messages: seq<Message>, st: Stage)
    requires Inv(s) && TalkUpTo(s, turns, exchanges, last, messages) && Happens(s, last, messages, st)
    ensures Inv(Settled(s, messages, st))
    ensures TalkUpTo(Settled(s, messages, st), turns + [st.request], exchanges + [st.exchange], st.request, messages + st.exchange.Messages())
  {
    var posted := Posted(s, messages, st).0;
    PostGrows(s, turns, exchanges, last, messages, st);
    RunSound(posted, st.settling);
    TalkUpToPersists(posted, Run(posted, st.settling), turns + [st.request], exchanges + [st.exchange], st.request, messages + st.exchange.Messages());
  }

  lemma StageAdvances(s: State, last: Id, messages: seq<Message>, st: Stage)
    requires Inv(s) && Happens(s, last, messages, st)
    ensures Sound(s, Settled(s, messages, st))
  {
    var polled, ready, posted := Polled(s, st), Ready(s, st), Posted(s, messages, st).0;
    RunSound(s, st.waiting);
    RunSound(polled, st.thinking);
    CreateSound(ready, st.token, st.request, messages + st.exchange.Messages(), st.maxOutput, false, st.exchange.responder, st.now);
    RunSound(posted, st.settling);
    SoundTransitive(s, polled, ready);
    SoundTransitive(s, ready, posted);
    SoundTransitive(s, posted, Settled(s, messages, st));
  }

  lemma StagesInOrder(turns: seq<Id>, exchanges: seq<Exchange>, stages: seq<Stage>)
    requires stages != []
    ensures turns + [stages[0].request] + Requests(stages[1..]) == turns + Requests(stages)
    ensures exchanges + [stages[0].exchange] + Said(stages[1..]) == exchanges + Said(stages)
  {
  }

  lemma NoStages(turns: seq<Id>, exchanges: seq<Exchange>)
    ensures turns + Requests([]) == turns && exchanges + Said([]) == exchanges
  {
  }

  lemma {:induction false} TalkOverRun(s: State, turns: seq<Id>, exchanges: seq<Exchange>, last: Id, messages: seq<Message>, stages: seq<Stage>)
    requires Inv(s) && TalkUpTo(s, turns, exchanges, last, messages) && AllHappen(s, last, messages, stages)
    ensures Sound(s, Final(s, messages, stages))
    ensures Talk(Final(s, messages, stages), turns + Requests(stages), exchanges + Said(stages))
    decreases |stages|
  {
    if stages == [] {
      NoStages(turns, exchanges);
      SoundReflexive(s);
    } else {
      var st, rest := stages[0], stages[1..];
      StageGrows(s, turns, exchanges, last, messages, st);
      StageAdvances(s, last, messages, st);
      TalkOverRun(Settled(s, messages, st), turns + [st.request], exchanges + [st.exchange], st.request, messages + st.exchange.Messages(), rest);
      StagesInOrder(turns, exchanges, stages);
      SoundTransitive(s, Settled(s, messages, st), Final(s, messages, stages));
    }
  }

  /** A conversation that starts with one question goes as the stages say. */
  lemma TalkFromQuestion(s: State, first: Id, question: Message, stages: seq<Stage>)
    requires Inv(s) && first in s.requests && s.requests[first].ask.messages == [question] && question.role == "user"
    requires AllHappen(s, first, [question], stages)
    ensures Sound(s, Final(s, [question], stages)) && Talk(Final(s, [question], stages), [first] + Requests(stages), Said(stages))
  {
    TalkStarts(s, first, question);
    TalkOverRun(s, [first], [], first, [question], stages);
    assert [] + Said(stages) == Said(stages);
  }

  lemma TalkStarts(s: State, first: Id, question: Message)
    requires first in s.requests && s.requests[first].ask.messages == [question] && question.role == "user"
    ensures TalkUpTo(s, [first], [], first, [question])
  {
  }

  /** A conversation that starts with one question in any reachable state: after any number of turns, and whatever
      happens then, all turns have one responder and each asks with the full alternating transcript. */
  lemma PersonaConversation(s: State, first: Id, question: Message, stages: seq<Stage>, more: seq<Op>, i: nat)
    requires Inv(s) && first in s.requests && s.requests[first].ask.messages == [question] && question.role == "user"
    requires stages != [] && i <= |stages| && AllHappen(s, first, [question], stages)
    requires ValidRun(Final(s, [question], stages), more)
    ensures var t, turns := Run(Final(s, [question], stages), more), [first] + Requests(stages);
            && Talk(t, turns, Said(stages))
            && (t.requests[turns[i]].responder.Responder? ==> t.requests[turns[i]].responder.session == stages[0].exchange.responder)
            && |t.requests[turns[i]].ask.messages| == 2 * i + 1 && Alternates(t.requests[turns[i]].ask.messages)
            && Quotes(t, turns, t.requests[turns[i]].ask.messages, i)
  {
    TalkFromQuestion(s, first, question, stages);
    TalkMeansLater(Final(s, [question], stages), [first] + Requests(stages), Said(stages), more, i);
  }

  lemma TalkMeansLater(s: State, turns: seq<Id>, exchanges: seq<Exchange>, more: seq<Op>, i: nat)
    requires Inv(s) && Talk(s, turns, exchanges) && exchanges != [] && i < |turns| && ValidRun(s, more)
    ensures var t := Run(s, more);
            && Talk(t, turns, exchanges)
            && (t.requests[turns[i]].responder.Responder? ==> t.requests[turns[i]].responder.session == exchanges[0].responder)
            && |t.requests[turns[i]].ask.messages| == 2 * i + 1 && Alternates(t.requests[turns[i]].ask.messages)
            && Quotes(t, turns, t.requests[turns[i]].ask.messages, i)
  {
    RunSound(s, more);
    TalkPersists(s, Run(s, more), turns, exchanges);
    TalkMeans(Run(s, more), turns, exchanges, i);
  }

  lemma TalkMeans(t: State, turns: seq<Id>, exchanges: seq<Exchange>, i: nat)
    requires RequestsOk(t) && Talk(t, turns, exchanges) && exchanges != [] && i < |turns|
    ensures t.requests[turns[i]].responder.Responder? ==> t.requests[turns[i]].responder.session == exchanges[0].responder
    ensures |t.requests[turns[i]].ask.messages| == 2 * i + 1 && Alternates(t.requests[turns[i]].ask.messages)
    ensures Quotes(t, turns, t.requests[turns[i]].ask.messages, i)
  {
    FullTranscript(t, turns, exchanges, i);
    if t.requests[turns[i]].responder.Responder? {
      SameResponder(t, turns, exchanges, i);
    }
  }

  // ---------------------------------------------------------------- the loop in the run

  /** What happens around one turn of the loop: operations before each of its polls, whether the queueing time is over at
      each, operations while the question is thought up, the arguments the loop adds to its follow-up, and operations
      between the follow-up and the resumption. */
  datatype Leg = Leg(before: seq<seq<Op>>, lates: seq<bool>, thinking: seq<Op>, token: Id, request: Id, maxOutput: int, now: int,
                     settling: seq<Op>, resumedAt: int)

  ghost function PollsOf(s: State, q: Id, leg: Leg): seq<Poll>
    requires |leg.lates| == |leg.before|
  {
    seq(|leg.before|, i requires 0 <= i < |leg.before| => PollOf(Run(s, Flatten(leg.before[..i + 1])), q, leg.lates[i]))
  }

  /** The state in which the loop posts. */
  ghost function LegReady(s: State, leg: Leg): State {
    Run(Run(s, Flatten(leg.before)), leg.thinking)
  }

  /** The loop's own call, carried out. */
  ghost function LegPosted(s: State, leg: Leg, c: Call): (State, Result<Id>)
    requires c.Create?
  {
    CreateTargetedRequest(LegReady(s, leg), leg.token, leg.request, c.messages, leg.maxOutput, c.preferred, leg.now)
  }

  ghost function LegSettled(s: State, leg: Leg, c: Call): State
    requires c.Create?
  {
    Run(LegPosted(s, leg, c).0, leg.settling)
  }

  /** The state after the resumption. */
  ghost function LegEnd(s: State, leg: Leg, c: Call, responder: Id): State
    requires c.Create?
  {
    Step(LegSettled(s, leg, c), DoResume(responder, leg.resumedAt))
  }

  /** A turn of the loop in the run.  The round is what the loop saw: its polls are polls of the run's states, of which
      only the last may end the waiting; the follow-up exists if the run created the one that the loop's call `c` asks
      for; and the responder is resumed if the run resumed it. */
  ghost predicate LegPlays(s: State, current: Id, leg: Leg, r: Round, c: Call) {
    && |leg.lates| == |leg.before| && ValidRun(s, Flatten(leg.before)) && r.polls == PollsOf(s, current, leg)
    && (forall i :: 0 <= i < |r.polls| - 1 ==> Waits(r.polls[i]))
    && ValidRun(Run(s, Flatten(leg.before)), leg.thinking) && leg.request !in LegReady(s, leg).requests && c.Create?
    && r.created == (if LegPosted(s, leg, c).1.Ok? then Some(leg.request) else None)
    && ValidRun(LegPosted(s, leg, c).0, leg.settling)
    && r.resumed == ResumeResponder(LegSettled(s, leg, c), WhoAnswered(r), leg.resumedAt).1.Ok?
  }

  /** Who answered in a round. */
  function WhoAnswered(r: Round): Id {
    match Wait(r.polls)
    case Answered(responder, _) => responder
    case GaveUp(_) => ""
  }

  /** The turns from number `n` on, played in the run with the loop's calls `creates`; all of them go on. */
  ghost predicate Plays(s: State, current: Id, n: nat, legs: seq<Leg>, rounds: seq<Round>, creates: seq<Call>)
    decreases |legs|
  {
    legs == [] ||
    (&& n < |rounds| && n < |creates| && Wait(rounds[n].polls).Answered? && GoesOn(rounds[n])
     && LegPlays(s, current, legs[0], rounds[n], creates[n])
     && Plays(LegEnd(s, legs[0], creates[n], WhoAnswered(rounds[n])), legs[0].request, n + 1, legs[1..], rounds, creates))
  }

  function StageOf(leg: Leg, e: Exchange): Stage {
    Stage(Flatten(leg.before), leg.thinking, e, leg.token, leg.request, leg.maxOutput, leg.now,
          leg.settling + [DoResume(e.responder, leg.resumedAt)])
  }

  // ---------------------------------------------------------------- the loop's turns are stages

  lemma LastPollDecides(polls: seq<Poll>)
    requires (forall i :: 0 <= i < |polls| - 1 ==> Waits(polls[i])) && Wait(polls).Answered?
    ensures polls != []
    ensures var p := polls[|polls| - 1]; HasAnswer(p) && Wait(polls) == Answered(p.responder, TrimSpace(p.answer))
  {
    var n := |polls|;
    FirstDecides(polls, if n == 0 || Waits(polls[n - 1]) then n else n - 1);
  }

  lemma PolledAnswer(s: State, q: Id, late: bool, question: string)
    requires HasAnswer(PollOf(s, q, late))
    ensures var p := PollOf(s, q, late);
            q in s.requests && AnsweredAs(s.requests[q], Exchange(p.responder, TrimSpace(p.answer), question))
  {
  }

  /** The answer that ends the waiting is there in the run. */
  lemma LegIsAnswered(s: State, current: Id, leg: Leg, r: Round, e: Exchange)
    requires |leg.lates| == |leg.before| && r.polls == PollsOf(s, current, leg)
    requires forall i :: 0 <= i < |r.polls| - 1 ==> Waits(r.polls[i])
    requires Wait(r.polls) == Answered(e.responder, e.answer)
    ensures var t := Run(s, Flatten(leg.before)); current in t.requests && AnsweredAs(t.requests[current], e)
  {
    LastPollDecides(r.polls);
    var n := |leg.before| - 1;
    assert leg.before[..n + 1] == leg.before;
    assert r.polls[n] == PollOf(Run(s, Flatten(leg.before)), current, leg.lates[n]);
    PolledAnswer(Run(s, Flatten(leg.before)), current, leg.lates[n], e.question);
  }

  lemma OneMore(s: State, ops: seq<Op>, op: Op)
    requires ValidRun(s, ops) && Enabled(Run(s, ops), op)
    ensures ValidRun(s, ops + [op]) && Run(s, ops + [op]) == Step(Run(s, ops), op)
  {
    assert (ops + [op])[..|ops|] == ops;
  }

  /** One turn of the loop, as a stage of the run: the stage posts just what the loop's call asks for. */
  lemma LegHappens(s: State, current: Id, leg: Leg, r: Round, c: Call, history: seq<Message>, e: Exchange)
    requires LegPlays(s, current, leg, r, c) && GoesOn(r)
    requires Wait(r.polls) == Answered(e.responder, e.answer) && c == Create(history + e.Messages(), e.responder)
    ensures Happens(s, current, history, StageOf(leg, e))
    ensures Settled(s, history, StageOf(leg, e)) == LegEnd(s, leg, c, e.responder)
  {
    var st := StageOf(leg, e);
    LegIsAnswered(s, current, leg, r, e);
    assert Posted(s, history, st) == LegPosted(s, leg, c);
    OneMore(LegPosted(s, leg, c).0, leg.settling, DoResume(e.responder, leg.resumedAt));
  }

  function StagesOf(legs: seq<Leg>, exchanges: seq<Exchange>): seq<Stage> {
    if legs == [] || exchanges == [] then [] else [StageOf(legs[0], exchanges[0])] + StagesOf(legs[1..], exchanges[1..])
  }

  lemma StagesHead(legs: seq<Leg>, exchanges: seq<Exchange>, n: nat)
    requires legs != [] && n < |exchanges|
    ensures var stages := StagesOf(legs, exchanges[n..]);
            stages != [] && stages[0] == StageOf(legs[0], exchanges[n]) && stages[1..] == StagesOf(legs[1..], exchanges[n + 1..])
  {
    assert exchanges[n..][1..] == exchanges[n + 1..];
  }

  /** The turns before `n` were answered and went on. */
  ghost predicate WentOn(rounds: seq<Round>, n: nat) {
    n <= |rounds| && forall i :: 0 <= i < n ==> Wait(rounds[i].polls).Answered? && GoesOn(rounds[i])
  }

  /** What the loop does in turn `n`: its call carries the transcript so far with the exchange of the turn. */
  lemma TurnCall(opening: Message, rounds: seq<Round>, n: nat)
    requires n < |rounds| && WentOn(rounds, n + 1)
    ensures var ex, creates := Exchanges(rounds), Posts([opening], Exchanges(rounds));
            && n < |ex| && n < |creates| && ex[n].question == rounds[n].question
            && Wait(rounds[n].polls) == Answered(ex[n].responder, ex[n].answer)
            && creates[n] == Create(History([opening], ex[..n]) + ex[n].Messages(), ex[n].responder)
            && History([opening], ex[..n + 1]) == History([opening], ex[..n]) + ex[n].Messages()
  {
    var ex := Exchanges(rounds);
    ExchangeAt(rounds, n);
    ExchangesAre(rounds);
    PostAt([opening], ex, n);
    assert ex[..n + 1][..n] == ex[..n];
  }

  /** The turns of the loop, played in a run with the loop's own calls, are stages of a conversation in that run with the
      loop's own exchanges. */
  lemma {:induction false} LoopHappens(s: State, current: Id, n: nat, legs: seq<Leg>, opening: Message, rounds: seq<Round>)
    requires WentOn(rounds, n) && n <= |Exchanges(rounds)| && Plays(s, current, n, legs, rounds, Posts([opening], Exchanges(rounds)))
    ensures n + |legs| <= |Exchanges(rounds)|
    ensures AllHappen(s, current, History([opening], Exchanges(rounds)[..n]), StagesOf(legs, Exchanges(rounds)[n..]))
    decreases |legs|
  {
    if legs != [] {
      var ex, creates := Exchanges(rounds), Posts([opening], Exchanges(rounds));
      var history := History([opening], ex[..n]);
      TurnCall(opening, rounds, n);
      LegHappens(s, current, legs[0], rounds[n], creates[n], history, ex[n]);
      LoopHappens(LegEnd(s, legs[0], creates[n], ex[n].responder), legs[0].request, n + 1, legs[1..], opening, rounds);
      StagesHead(legs, ex, n);
    }
  }

  lemma {:induction false} StagesSay(legs: seq<Leg>, exchanges: seq<Exchange>)
    requires |legs| <= |exchanges|
    ensures Said(StagesOf(legs, exchanges)) == exchanges[..|legs|] && |StagesOf(legs, exchanges)| == |legs|
    ensures forall i :: 0 <= i < |legs| ==> StagesOf(legs, exchanges)[i].request == legs[i].request
  {
    if legs != [] {
      StagesSay(legs[1..], exchanges[1..]);
    }
  }

  function LegRequests(legs: seq<Leg>): seq<Id> {
    seq(|legs|, k requires 0 <= k < |legs| => legs[k].request)
  }

  lemma LoopFromStart(s: State, first: Id, opening: Message, legs: seq<Leg>, rounds: seq<Round>)
    requires Plays(s, first, 0, legs, rounds, Posts([opening], Exchanges(rounds)))
    ensures |legs| <= |Exchanges(rounds)| && AllHappen(s, first, [opening], StagesOf(legs, Exchanges(rounds)))
  {
    var ex := Exchanges(rounds);
    LoopHappens(s, first, 0, legs, opening, rounds);
    assert ex[..0] == [] && ex[0..] == ex;
  }

  lemma StagesList(legs: seq<Leg>, exchanges: seq<Exchange>)
    requires |legs| <= |exchanges|
    ensures Said(StagesOf(legs, exchanges)) == exchanges[..|legs|] && Requests(StagesOf(legs, exchanges)) == LegRequests(legs)
  {
    StagesSay(legs, exchanges);
  }

  lemma LoopStages(s: State, first: Id, opening: Message, legs: seq<Leg>, rounds: seq<Round>)
    requires Plays(s, first, 0, legs, rounds, Creates(Script(first, [opening], rounds)))
    ensures |legs| <= |Exchanges(rounds)|
    ensures var stages := StagesOf(legs, Exchanges(rounds));
            && AllHappen(s, first, [opening], stages)
            && Said(stages) == Exchanges(rounds)[..|legs|] && Requests(stages) == LegRequests(legs)
  {
    ScriptMeans(first, [opening], rounds);
    LoopFromStart(s, first, opening, legs, rounds);
    StagesList(legs, Exchanges(rounds));
  }

  /** Turn `i`: held or answered by nobody but the responder of the first exchange, and asked with the transcript of the
      exchanges before it, which is alternating and complete. */
  ghost predicate TurnIs(t: State, turns: seq<Id>, exchanges: seq<Exchange>, opening: Message, i: nat) {
    && i < |turns| && i <= |exchanges| && exchanges != [] && turns[i] in t.requests
    && (t.requests[turns[i]].responder.Responder? ==> t.requests[turns[i]].responder.session == exchanges[0].responder)
    && t.requests[turns[i]].ask.messages == History([opening], exchanges[..i])
    && |t.requests[turns[i]].ask.messages| == 2 * i + 1 && Alternates(t.requests[turns[i]].ask.messages)
  }

  lemma TurnMeansThis(t: State, turns: seq<Id>, exchanges: seq<Exchange>, opening: Message, i: nat)
    requires RequestsOk(t) && Talk(t, turns, exchanges) && exchanges != [] && i < |turns|
    requires t.requests[turns[0]].ask.messages == [opening]
    ensures TurnIs(t, turns, exchanges, opening, i)
  {
    TalkMeans(t, turns, exchanges, i);
    TalkIsHistory(t, turns, exchanges, opening, i);
  }

  /** The conversation at its end and after any further run. */
  lemma TalkLater(s: State, first: Id, opening: Message, stages: seq<Stage>, requests: seq<Id>, exchanges: seq<Exchange>, more: seq<Op>, i: nat)
    requires Inv(s) && first in s.requests && s.requests[first].ask.messages == [opening] && opening.role == "user"
    requires requests == Requests(stages) && exchanges == Said(stages) && exchanges != [] && i <= |requests|
    requires AllHappen(s, first, [opening], stages) && ValidRun(Final(s, [opening], stages), more)
    ensures var t := Run(Final(s, [opening], stages), more);
            Talk(t, [first] + requests, exchanges) && TurnIs(t, [first] + requests, exchanges, opening, i)
  {
    TalkEnds(s, first, opening, stages, more);
    TalkAfter(s, Final(s, [opening], stages), Run(Final(s, [opening], stages), more), first, requests, exchanges, opening, i);
  }

  lemma TalkEnds(s: State, first: Id, opening: Message, stages: seq<Stage>, more: seq<Op>)
    requires Inv(s) && first in s.requests && s.requests[first].ask.messages == [opening] && opening.role == "user"
    requires AllHappen(s, first, [opening], stages) && ValidRun(Final(s, [opening], stages), more)
    ensures var end := Final(s, [opening], stages);
            && Talk(end, [first] + Requests(stages), Said(stages))
            && RequestsOk(Run(end, more)) && Advances(s, Run(end, more)) && Advances(end, Run(end, more))
  {
    TalkFromQuestion(s, first, opening, stages);
    RunsOn(s, Final(s, [opening], stages), more);
  }

  lemma RunsOn(s: State, end: State, more: seq<Op>)
    requires Sound(s, end) && ValidRun(end, more)
    ensures RequestsOk(Run(end, more)) && Advances(s, Run(end, more)) && Advances(end, Run(end, more))
  {
    RunSound(end, more);
    SoundTransitive(s, end, Run(end, more));
  }

  lemma TalkAfter(s: State, end: State, t: State, first: Id, requests: seq<Id>, exchanges: seq<Exchange>, opening: Message, i: nat)
    requires first in s.requests && s.requests[first].ask.messages == [opening] && Advances(s, t) && RequestsOk(t)
    requires Talk(end, [first] + requests, exchanges) && Advances(end, t) && exchanges != [] && i <= |requests|
    ensures Talk(t, [first] + requests, exchanges) && TurnIs(t, [first] + requests, exchanges, opening, i)
  {
    TalkPersists(end, t, [first] + requests, exchanges);
    assert Evolves(s.requests[first], t.requests[first]);
    TurnMeansThis(t, [first] + requests, exchanges, opening, i);
  }

  /** The verified loop in a run of the service.  A persona asks; the loop runs with anything else going on; its polls see
      the run's states and its calls are carried out in it.  Then, and after whatever happens next, all turns have the
      responder that answered first, and each asks with the full alternating transcript, the loop's own. */
  lemma LoopConversation(s: State, first: Id, opening: Message, legs: seq<Leg>, rounds: seq<Round>, more: seq<Op>, i: nat)
    requires Inv(s) && first in s.requests && s.requests[first].ask.messages == [opening] && opening.role == "user"
    requires legs != [] && i <= |legs| && Plays(s, first, 0, legs, rounds, Creates(Script(first, [opening], rounds)))
    requires ValidRun(Final(s, [opening], StagesOf(legs, Exchanges(rounds))), more)
    ensures |legs| <= |Exchanges(rounds)|
    ensures var t := Run(Final(s, [opening], StagesOf(legs, Exchanges(rounds))), more);
            var turns, exchanges := [first] + LegRequests(legs), Exchanges(rounds)[..|legs|];
            Talk(t, turns, exchanges) && TurnIs(t, turns, exchanges, opening, i)
  {
    LoopStages(s, first, opening, legs, rounds);
    TalkLater(s, first, opening, StagesOf(legs, Exchanges(rounds)), LegRequests(legs), Exchanges(rounds)[..|legs|], more, i);
  }

  /** The transcript of a turn is the history of the exchanges before it. */
  lemma {:induction false} TalkIsHistory(t: State, turns: seq<Id>, exchanges: seq<Exchange>, opening: Message, i: nat)
    requires Talk(t, turns, exchanges) && i < |turns| && t.requests[turns[0]].ask.messages == [opening]
    ensures t.requests[turns[i]].ask.messages == History([opening], exchanges[..i])
    decreases i
  {
    if i > 0 {
      TalkIsHistory(t, turns, exchanges, opening, i - 1);
      assert FollowsUp(t.requests[turns[i - 1]].ask, t.requests[turns[i]].ask, exchanges[i - 1]);
      assert exchanges[..i][..i - 1] == exchanges[..i - 1];
    }
  }
}
