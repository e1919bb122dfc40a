/** What each operation of the service does to the stored fields, and when it refuses: the accepted inputs, the new
    records, the entries and the errors, written out on the fields themselves with the service's own numbers. */
module ServiceEffects {
  import opened Sequences
  import opened Domain
  import opened ServiceSpec
  import opened RequestRules
  import opened ServiceInvariant
  import opened ServiceOperations
  import Matching

  // ---------------------------------------------------------------- records

  /** Every subscriber with room in its buffer of 64 gets the event last, the others lose it. */
  ghost predicate Hears(before: map<Id, Subscriber>, after: map<Id, Subscriber>, e: Event) {
    && after.Keys == before.Keys
    && forall k :: k in before ==>
         after[k] == if before[k].pending < 64 then before[k].(log := before[k].log + [e], pending := before[k].pending + 1)
                     else before[k].(lost := true)
  }

  /** The request has ended for its responder, with the status and reason given, and its subscribers know. */
  ghost predicate Ended(r: Request, r': Request, status: Status, reason: Reason, now: int) {
    && r' == r.(status := status, finish := reason, updatedAt := now, completedAt := Some(now), subscribers := r'.subscribers)
    && Hears(r.subscribers, r'.subscribers, Done(reason))
  }

  /** The request was given up for good: no responder, no points held, and subscribers are told that it stopped. */
  ghost predicate GivenUp(r: Request, r': Request, now: int) {
    && r' == r.(status := Abandoned, responder := Nobody, frozen := 0, updatedAt := now, subscribers := r'.subscribers)
    && Hears(r.subscribers, r'.subscribers, Done(Stop))
  }

  /** The request waits again. */
  function Waiting(r: Request, now: int): Request {
    r.(status := Queued, responder := Nobody, updatedAt := now)
  }

  /** The reward entry of a completed answer: ten points for a responder with an account. */
  function Reward(q: Id, holder: Responder): seq<Entry> {
    if holder.Responder? && !holder.guest && holder.user != "" then [Entry(holder.user, q, AnswerReward, 10)] else []
  }

  /** The session behind a token. */
  predicate Knows(s: State, token: Id) {
    token in s.tokens && s.tokens[token] in s.sessions
  }

  // ---------------------------------------------------------------- finish, skip, cancel

  /** A finish is accepted exactly from a session that holds a request with a fragment.  The request is then completed
      with reason `Stop`, its responder is free and paid, and nothing else changes. */
  lemma FinishExactly(s: State, a: Id, now: int)
    requires Inv(s)
    ensures var (t, result) := Finish(s, a, now);
            && (a in s.active ==> s.active[a] in s.requests)
            && (result.Ok? <==> a in s.active && s.requests[s.active[a]].fragments != [])
            && (a !in s.active ==> result == Err(NoActiveAssignment))
            && (result.Err? ==> t == s)
    ensures var (t, result) := Finish(s, a, now);
            result.Ok? ==>
              var q := s.active[a];
              && q in t.requests && Ended(s.requests[q], t.requests[q], Completed, Stop, now)
              && t == s.(active := s.active - {a}, requests := s.requests[q := t.requests[q]],
                         ledger := s.ledger + Reward(q, s.requests[q].responder))
  {
    if a in s.active {
      HeldRequest(s, a);
      EndsExactly(s, s.active[a], Stop, now);
    }
  }

  lemma EndsExactly(s: State, q: Id, reason: Reason, now: int)
    requires q in s.requests && IsHeld(s.requests[q].status) && s.requests[q].responder.Responder?
    ensures var t, r := Complete(s, q, reason, now), s.requests[q];
            && q in t.requests && Ended(r, t.requests[q], if reason == Partial then TimeoutCompleted else Completed, reason, now)
            && t == s.(active := s.active - {r.responder.session}, requests := s.requests[q := t.requests[q]],
                       ledger := s.ledger + if r.fragments != [] then Reward(q, r.responder) else [])
  {
    assert s.ledger + [] == s.ledger;
  }

  lemma AbandonsExactly(s: State, q: Id, now: int)
    requires q in s.requests && QueueOk(s)
    ensures var t, r := Abandon(s, q, now), s.requests[q];
            && q in t.requests && GivenUp(r, t.requests[q], now)
            && q !in t.queue && (forall p :: p in t.queue <==> p in s.queue && p != q) && t.queue == Without(s.queue, q)
            && t == s.(active := if r.responder.Responder? then s.active - {r.responder.session} else s.active, queue := t.queue,
                       requests := s.requests[q := t.requests[q]])
  {
    WithoutMembers(s.queue, q);
  }

  /** A skip is accepted exactly from a session that holds a request without a fragment.  A targeted request or a
      persona's question ends; any other goes to the end of the queue and is matched again. */
  lemma SkipExactly(s: State, a: Id, now: int)
    requires Inv(s)
    ensures var (t, result) := Skip(s, a, now);
            && (a in s.active ==> s.active[a] in s.requests)
            && (result.Ok? <==> a in s.active && s.requests[s.active[a]].fragments == [])
            && (a !in s.active ==> result == Err(NoActiveAssignment))
            && (a in s.active && result.Err? ==> result == Err(CannotSkipCommitted))
            && (result.Err? ==> t == s)
    ensures var (t, result) := Skip(s, a, now);
            result.Ok? ==>
              var q := s.active[a];
              var r := s.requests[q];
              if r.ask.preferred != "" || r.ask.kind == AiPersona then
                && q in t.requests && GivenUp(r, t.requests[q], now)
                && t == s.(active := s.active - {a}, requests := s.requests[q := t.requests[q]])
              else
                t == TryAssign(s.(active := s.active - {a}, requests := s.requests[q := Waiting(r, now)], queue := s.queue + [q]), now)
  {
    if a in s.active {
      HeldRequest(s, a);
      WithoutAbsent(s.queue, s.active[a]);
      AbandonsExactly(s, s.active[a], now);
    }
  }

  /** A request is withdrawn exactly if it is live and has no fragment. */
  lemma CancelExactly(s: State, q: Id, now: int)
    requires Inv(s)
    ensures var (t, done) := Cancel(s, q, now);
            && (done <==> q in s.requests && (s.requests[q].status == Queued || s.requests[q].status == Assigned))
            && (!done ==> t == s)
            && (done ==>
                  var r := s.requests[q];
                  && q in t.requests && GivenUp(r, t.requests[q], now) && t.queue == Without(s.queue, q)
                  && t == s.(active := if r.responder.Responder? then s.active - {r.responder.session} else s.active, queue := t.queue,
                             requests := s.requests[q := t.requests[q]]))
  {
    if q in s.requests {
      assert RequestOk(s.requests[q]);
      CancelIs(s, q, now);
      AbandonsExactly(s, q, now);
    }
  }

  lemma CancelIs(s: State, q: Id, now: int)
    requires q in s.requests && Shape(s.requests[q])
    ensures Cancel(s, q, now) == if s.requests[q].status == Queued || s.requests[q].status == Assigned then (Abandon(s, q, now), true) else (s, false)
  {
  }

  // ---------------------------------------------------------------- creation

  lemma {:induction false} InputSizeAdds(a: seq<Message>, b: seq<Message>)
    ensures InputSize(a + b) == InputSize(a) + InputSize(b)
    ensures |b| == 1 ==> InputSize(b) == |b[0].content|
    decreases |b|
  {
    if b == [] {
      assert a + b == a;
    } else {
      var n := |b| - 1;
      InputSizeAdds(a, b[..n]);
      assert (a + b)[..|a + b| - 1] == a + b[..n];
    }
  }

  /** The stored question. */
  function NewQuestion(id: Id, info: Session, allowAi: bool, preferred: Id, messages: seq<Message>, maxOutput: int, now: int): Request {
    Request(Ask(info.user, id, info.guest, if info.kind == Unset then Human else info.kind, allowAi, preferred, messages,
                if 1 <= maxOutput <= 128000 then maxOutput else 128000),
            Queued, Nobody, if info.guest then 0 else 5, false, NoReason, Neutral, now, None, [], map[], map[])
  }

  /** A question is accepted exactly if it has at most 100000 characters, comes with a known token, is targeted only by a
      persona, and is paid for: a guest's is free, an account needs five available points.  It is then stored, queued
      last, and a matching pass runs. */
  lemma CreateExactly(s: State, token: Id, q: Id, messages: seq<Message>, maxOutput: int, allowAi: bool, preferred: Id, now: int)
    ensures var (t, result) := CreateRequest(s, token, q, messages, maxOutput, allowAi, preferred, now);
            && (InputSize(messages) > 100000 ==> result == Err(InputTooLarge))
            && (InputSize(messages) <= 100000 && !Knows(s, token) ==> result == Err(Unauthorized))
            && (InputSize(messages) <= 100000 && Knows(s, token) ==>
                  var id := s.tokens[token];
                  var info := s.sessions[id];
                  && (preferred != "" && info.kind != AiPersona ==> result == Err(Unauthorized))
                  && ((preferred == "" || info.kind == AiPersona) ==>
                        if !info.guest && Total(s.ledger, info.user) - Held(s.requests, info.user) < 5 then result == Err(InsufficientPoints)
                        else
                          && result == Ok(q)
                          && t == TryAssign(s.(requests := s.requests[q := NewQuestion(id, info, allowAi, preferred, messages, maxOutput, now)],
                                               queue := s.queue + [q]), now)))
            && (result.Err? ==> t == s)
  {
  }

  // ---------------------------------------------------------------- matching

  /** A queued request and a waiting responder suit each other exactly if the responder is registered and idle, is the
      preferred one if there is one, is no persona where AI is refused or another persona asks, and has not refused
      questions of personas if one asks. */
  lemma CompatibleExactly(s: State, q: Id, a: Id)
    requires QueueOk(s) && AvailableOk(s) && RosterOk(s) && q in s.queue && a in s.available
    ensures var ask, kind := s.requests[q].ask, s.sessions[a].kind;
            Compatible(s, q, a) <==>
              && (ask.preferred == "" || ask.preferred == a)
              && (kind == AiPersona ==> ask.allowAi && ask.kind != AiPersona)
              && (ask.kind == AiPersona && a in s.acceptAi ==> s.acceptAi[a])
  {
  }

  /** The record of a request handed to a session: it names the session as it is. */
  function Taken(r: Request, a: Id, info: Session, now: int): Request {
    r.(status := Assigned, responder := Responder(a, info.user, info.guest, if info.kind == Unset then Human else info.kind), updatedAt := now)
  }

  /** Handing a request out: both leave their lists, the request names the session as it is, and the assignment goes into
      the inbox; an inbox that holds four sends the request back to the end of the queue and leaves the responder out. */
  lemma HandOutExactly(s: State, i: nat, j: nat, now: int)
    requires i < |s.queue| && j < |s.available| && Compatible(s, s.queue[i], s.available[j])
    ensures var t, q, a := AssignNext(s, i, j, now), s.queue[i], s.available[j];
            var queue, available := s.queue[..i] + s.queue[i + 1..], s.available[..j] + s.available[j + 1..];
            if |s.responders[a]| < 4 then
              t == s.(queue := queue, available := available, active := s.active[a := q],
                      requests := s.requests[q := Taken(s.requests[q], a, s.sessions[a], now)],
                      responders := s.responders[a := s.responders[a] + [q]])
            else
              t == s.(queue := queue + [q], available := available, requests := s.requests[q := Waiting(s.requests[q], now)])
  {
    var q, a := s.queue[i], s.available[j];
    HandedOver(s, i, j, now);
    if |s.responders[a]| >= 4 {
      TakenBack(s, Assign(s, i, j, now), q, a, now);
    }
  }

  lemma HandedOver(s: State, i: nat, j: nat, now: int)
    requires i < |s.queue| && j < |s.available| && Compatible(s, s.queue[i], s.available[j])
    ensures var q, a := s.queue[i], s.available[j];
            Assign(s, i, j, now) ==
              s.(queue := s.queue[..i] + s.queue[i + 1..], available := s.available[..j] + s.available[j + 1..],
                 active := s.active[a := q], requests := s.requests[q := Taken(s.requests[q], a, s.sessions[a], now)])
  {
  }

  lemma TakenBack(s: State, t: State, q: Id, a: Id, now: int)
    requires q in s.requests && a in s.sessions && a !in s.active
    requires t.active == s.active[a := q] && t.requests == s.requests[q := Taken(s.requests[q], a, s.sessions[a], now)]
    ensures Requeue(t, q, now) ==
              t.(active := s.active, queue := t.queue + [q], requests := s.requests[q := Waiting(s.requests[q], now)])
  {
    assert s.active[a := q] - {a} == s.active;
    assert t.requests[q := Waiting(s.requests[q], now)] == s.requests[q := Waiting(s.requests[q], now)];
  }

  /** The pass hands out pairs until there is none: each time the oldest request that has a responder, with the one
      that waited longest among those that suit it. */
  lemma PassExactly(s: State, now: int)
    ensures Quiescent(s) ==> TryAssign(s, now) == s
    ensures forall i: nat, j: nat ::
              i < |s.queue| && j < |s.available| && Compatible(s, s.queue[i], s.available[j])
              && Matching.NoPair(s.queue[..i], s.available, CompatibleIn(s))
              && Matching.NoPair([s.queue[i]], s.available[..j], CompatibleIn(s))
              ==> TryAssign(s, now) == TryAssign(AssignNext(s, i, j, now), now)
  {
    TryAssignIs(s, now);
    if Quiescent(s) {
      Matching.MemoryNextNone(s.queue, s.available, CompatibleIn(s));
    }
    forall i: nat, j: nat |
      i < |s.queue| && j < |s.available| && Compatible(s, s.queue[i], s.available[j])
      && Matching.NoPair(s.queue[..i], s.available, CompatibleIn(s))
      && Matching.NoPair([s.queue[i]], s.available[..j], CompatibleIn(s))
      ensures TryAssign(s, now) == TryAssign(AssignNext(s, i, j, now), now)
    {
      FirstPair(s, i, j);
    }
  }

  lemma FirstPair(s: State, i: nat, j: nat)
    requires i < |s.queue| && j < |s.available| && Compatible(s, s.queue[i], s.available[j])
    requires Matching.NoPair(s.queue[..i], s.available, CompatibleIn(s))
    requires Matching.NoPair([s.queue[i]], s.available[..j], CompatibleIn(s))
    ensures Matching.MemoryNext(s.queue, s.available, CompatibleIn(s)) == Some((i, j))
  {
    var ok := CompatibleIn(s);
    forall k | 0 <= k < j ensures !ok(s.queue[i], s.available[k]) {
      assert s.available[..j][k] == s.available[k] && [s.queue[i]][0] == s.queue[i];
    }
    forall k | 0 <= k < i ensures !ok(s.queue[k], s.available[j]) {
      assert s.queue[..i][k] == s.queue[k];
    }
    Matching.MemoryNextIs(s.queue, s.available, ok, i, j);
  }

  // ---------------------------------------------------------------- offers and departures

  /** An offer is taken from a registered responder: the preference is stored as given, and an idle responder joins the
      end of the list, once, before a matching pass. */
  lemma MarkExactly(s: State, a: Id, acceptAi: bool, now: int)
    ensures var (t, result), preferences := MarkAvailable(s, a, acceptAi, now), s.acceptAi[a := acceptAi];
            if a !in s.responders then t == s && result == Err(ResponderUnavailable)
            else
              && result == Ok(())
              && t == if a in s.active then s.(acceptAi := preferences)
                      else if a in s.available then TryAssign(s.(acceptAi := preferences), now)
                      else TryAssign(s.(acceptAi := preferences, available := s.available + [a]), now)
  {
  }

  /** Resuming is an offer that leaves the preference as it was. */
  lemma ResumeExactly(s: State, a: Id, now: int)
    ensures var (t, result) := ResumeResponder(s, a, now);
            if a !in s.responders then t == s && result == Err(ResponderUnavailable)
            else
              && result == Ok(())
              && t == if a in s.active then s
                      else if a in s.available then TryAssign(s, now)
                      else TryAssign(s.(available := s.available + [a]), now)
  {
  }

  /** A responder that goes away leaves the lists.  What it holds waits again if there is no answer yet and anybody may
      answer, ends if it was the preferred one, and is completed as it stands if there is an answer. */
  lemma UnregisterExactly(s: State, a: Id, now: int)
    requires Inv(s)
    ensures a in s.active ==> s.active[a] in s.requests
    ensures var t := UnregisterResponder(s, a, now);
            var gone := s.(responders := s.responders - {a}, acceptAi := s.acceptAi - {a}, available := Without(s.available, a));
            if a !in s.active then t == gone
            else
              var q := s.active[a];
              var r := s.requests[q];
              && q in t.requests
              && if r.fragments != [] then
                   && Ended(r, t.requests[q], TimeoutCompleted, Partial, now)
                   && t == gone.(active := s.active - {a}, requests := s.requests[q := t.requests[q]],
                                 ledger := s.ledger + Reward(q, r.responder))
                 else if r.ask.preferred != "" then
                   && GivenUp(r, t.requests[q], now)
                   && t == gone.(active := s.active - {a}, requests := s.requests[q := t.requests[q]])
                 else
                   t == gone.(active := s.active - {a}, requests := s.requests[q := Waiting(r, now)], queue := s.queue + [q])
  {
    if a in s.active {
      var q, gone := s.active[a], Disconnect(s, a);
      HeldRequest(s, a);
      WithoutAbsent(s.queue, q);
      UnregisterIs(s, a, now);
      LetGoExactly(gone, q, now);
    }
  }

  lemma LetGoExactly(s: State, q: Id, now: int)
    requires q in s.requests && IsHeld(s.requests[q].status) && s.requests[q].responder.Responder? && Without(s.queue, q) == s.queue
    ensures var t, r := LetGo(s, q, now), s.requests[q];
            && q in t.requests
            && if r.fragments != [] then
                 && Ended(r, t.requests[q], TimeoutCompleted, Partial, now)
                 && t == s.(active := s.active - {r.responder.session}, requests := s.requests[q := t.requests[q]],
                            ledger := s.ledger + Reward(q, r.responder))
               else if r.ask.preferred != "" then
                 && GivenUp(r, t.requests[q], now)
                 && t == s.(active := s.active - {r.responder.session}, requests := s.requests[q := t.requests[q]])
               else
                 t == s.(active := s.active - {r.responder.session}, requests := s.requests[q := Waiting(r, now)], queue := s.queue + [q])
  {
    if s.requests[q].fragments != [] {
      EndsExactly(s, q, Partial, now);
    }
  }

  /** The fallback takes exactly a waiting request that anybody may answer and that welcomes AI. */
  lemma FallbackExactly(s: State, q: Id, now: int)
    requires Inv(s)
    ensures var (t, session) := AcquireFallback(s, q, now);
            if q in s.queue && s.requests[q].ask.preferred == "" && s.requests[q].ask.allowAi then
              var a := "fallback_" + q;
              && session == Some(a) && a !in s.active && a !in s.sessions
              && t == s.(queue := Without(s.queue, q), active := s.active[a := q],
                         requests := s.requests[q := s.requests[q].(status := Assigned, responder := Responder(a, "", true, Fallback), updatedAt := now)])
            else t == s && session == None
  {
    assert QueueOk(s);
    if q in s.requests {
      assert RequestOk(s.requests[q]);
      if s.requests[q].status == Queued {
        FallbackIsFree(s, q);
      }
    }
  }

  // ---------------------------------------------------------------- fragments

  /** The record after a stored fragment: the text is the answer so far and the new one, the question is paid for, and
      the request ends with reason `Length` exactly if the answer fills its limit. */
  ghost predicate Grown(r: Request, r': Request, f: Fragment) {
    var full, heard := |AnswerText(r.fragments)| + |f.text| == r.ask.limit, Publish(r.subscribers, Text(f.text));
    && f.clientSeq > 0
    && r' == r.(fragments := r.fragments + [f], seen := r.seen[SeqKey(f.session, f.clientSeq) := f], charged := true, frozen := 0,
                updatedAt := f.at, status := if full then Completed else Streaming, finish := if full then Length else NoReason,
                completedAt := if full then Some(f.at) else None, subscribers := r'.subscribers)
    && Hears(r.subscribers, heard, Text(f.text))
    && (if full then Hears(heard, r'.subscribers, Done(Length)) else r'.subscribers == heard)
  }

  /** The entries of a stored fragment: five points from the account that asked, at the first one, and the reward, at
      the last one. */
  function Fees(q: Id, r: Request, f: Fragment): seq<Entry> {
    (if r.fragments == [] && !r.ask.guest then [Entry(r.ask.requester, q, QuestionCharge, -5)] else [])
    + (if |AnswerText(r.fragments)| + |f.text| == r.ask.limit then Reward(q, r.responder) else [])
  }

  /** A submission is refused for a bad number or an empty text, without a held request, and when the answer would grow
      over its limit; a number already used is answered with the stored fragment; anything else is stored. */
  lemma SubmitExactly(s: State, a: Id, n: int, text: string, id: Id, now: int)
    requires Inv(s)
    ensures a in s.active ==> s.active[a] in s.requests
    ensures var (t, result) := SubmitFragment(s, a, n, text, id, now);
            if n <= 0 || text == "" then t == s && result == Err(InvalidArgument)
            else if a !in s.active then t == s && result == Err(NoActiveAssignment)
            else
              var q := s.active[a];
              var r, f := s.requests[q], Fragment(id, a, n, text, now);
              && (forall g :: g in r.fragments && g.clientSeq == n ==> t == s && result == Ok((g, true)))
              && ((forall g :: g in r.fragments ==> g.clientSeq != n) ==>
                    if |AnswerText(r.fragments)| + |text| > r.ask.limit then t == s && result == Err(OutputTooLarge)
                    else
                      && result == Ok((f, false)) && q in t.requests && Grown(r, t.requests[q], f)
                      && t == s.(requests := s.requests[q := t.requests[q]], ledger := s.ledger + Fees(q, r, f),
                                 active := if |AnswerText(r.fragments)| + |text| == r.ask.limit then s.active - {a} else s.active))
  {
    if n > 0 && text != "" && a in s.active {
      HeldRequest(s, a);
      SubmitHeld(s, a, n, text, id, now);
    }
  }

  lemma SubmitHeld(s: State, a: Id, n: int, text: string, id: Id, now: int)
    requires n > 0 && text != "" && a in s.active && s.active[a] in s.requests
    requires var r := s.requests[s.active[a]];
             RequestOk(r) && IsHeld(r.status) && r.responder.Responder? && r.responder.session == a
    ensures var (t, result), q := SubmitFragment(s, a, n, text, id, now), s.active[a];
            var r, f := s.requests[q], Fragment(id, a, n, text, now);
            && (forall g :: g in r.fragments && g.clientSeq == n ==> t == s && result == Ok((g, true)))
            && ((forall g :: g in r.fragments ==> g.clientSeq != n) ==>
                  if |AnswerText(r.fragments)| + |text| > r.ask.limit then t == s && result == Err(OutputTooLarge)
                  else
                    && result == Ok((f, false)) && q in t.requests && Grown(r, t.requests[q], f)
                    && t == s.(requests := s.requests[q := t.requests[q]], ledger := s.ledger + Fees(q, r, f),
                               active := if |AnswerText(r.fragments)| + |text| == r.ask.limit then s.active - {a} else s.active))
  {
    var q, r := s.active[a], s.requests[s.active[a]];
    UsedNumbers(r, a, n);
    if SeqKey(a, n) !in r.seen && |AnswerText(r.fragments)| + |text| <= r.ask.limit {
      CommitExactly(s, q, Fragment(id, a, n, text, now));
    }
  }

  /** A number counts as used exactly if a fragment carries it. */
  lemma UsedNumbers(r: Request, a: Id, n: int)
    requires AnswerOk(r) && r.responder.Responder? && r.responder.session == a && n > 0
    ensures forall g :: g in r.fragments && g.clientSeq == n ==> SeqKey(a, n) in r.seen && r.seen[SeqKey(a, n)] == g
    ensures SeqKey(a, n) in r.seen ==> r.seen[SeqKey(a, n)] in r.fragments && r.seen[SeqKey(a, n)].clientSeq == n
  {
    if SeqKey(a, n) in r.seen {
      var g := r.seen[SeqKey(a, n)];
      SeqKeyInjective(a, n, g.session, g.clientSeq);
    }
  }

  lemma CommitExactly(s: State, q: Id, f: Fragment)
    requires q in s.requests && IsHeld(s.requests[q].status) && Shape(s.requests[q]) && s.requests[q].responder.Responder?
    requires f.clientSeq > 0 && |AnswerText(s.requests[q].fragments)| + |f.text| <= s.requests[q].ask.limit
    ensures var t, r := Commit(s, q, f), s.requests[q];
            && q in t.requests && Grown(r, t.requests[q], f)
            && t == s.(requests := s.requests[q := t.requests[q]], ledger := s.ledger + Fees(q, r, f),
                       active := if |AnswerText(r.fragments)| + |f.text| == r.ask.limit then s.active - {r.responder.session} else s.active)
  {
    var r := s.requests[q];
    AnswerAppend(r.fragments, f);
    GrownRecord(r, f);
    FeesAre(s.ledger, q, r, f);
  }

  lemma FeesAre(ledger: seq<Entry>, q: Id, r: Request, f: Fragment)
    ensures var charge: seq<Entry> := if r.fragments == [] && !r.ask.guest then [Entry(r.ask.requester, q, QuestionCharge, -5)] else [];
            ledger + Fees(q, r, f) == ledger + charge + (if |AnswerText(r.fragments)| + |f.text| == r.ask.limit then Reward(q, r.responder) else [])
    ensures forall l: seq<Entry> {:trigger l + []} :: l + [] == l
  {
  }

  lemma GrownRecord(r: Request, f: Fragment)
    requires IsHeld(r.status) && Shape(r) && f.clientSeq > 0
    requires |AnswerText(r.fragments)| + |f.text| <= r.ask.limit
    ensures |AnswerText(r.fragments)| + |f.text| < r.ask.limit ==> Grown(r, AppendFragment(r, f), f)
    ensures |AnswerText(r.fragments)| + |f.text| == r.ask.limit ==> Grown(r, CompleteRequest(AppendFragment(r, f), Length, f.at), f)
  {
  }

  // ---------------------------------------------------------------- reactions

  /** What an answer is worth under a reaction. */
  function Worth(reaction: Reaction): int {
    match reaction
    case Like => 20
    case Dislike => 8
    case _ => 10
  }

  predicate Asks(session: Id, info: Session, ask: Ask) {
    if info.guest then ask.guest && ask.session == session else ask.requester == info.user
  }

  /** Who may react to a request: the account that asked it or, without an account, the very session that asked it, to an
      answer that was completed at most twenty-four hours ago. */
  predicate MayReact(s: State, token: Id, q: Id, reaction: Reaction, now: int) {
    && reaction != Unknown && Knows(s, token) && q in s.requests
    && Asks(s.tokens[token], s.sessions[s.tokens[token]], s.requests[q].ask)
    && s.requests[q].completedAt.Some? && now - s.requests[q].completedAt.value <= 86_400_000_000_000
  }

  /** Exactly these reactions are accepted.  They set the reaction of the request and book what it changes in the worth of
      the answer to the account that gave it; the balance of that account, or of the asking one, is returned. */
  lemma ReactExactly(s: State, token: Id, q: Id, reaction: Reaction, now: int)
    requires Inv(s)
    ensures var (t, result) := React(s, token, q, reaction, now);
            && (result.Ok? <==> MayReact(s, token, q, reaction, now))
            && (result.Err? ==> t == s)
            && (reaction == Unknown ==> result == Err(InvalidArgument))
            && (reaction != Unknown && !Knows(s, token) ==> result == Err(Unauthorized))
            && (reaction != Unknown && Knows(s, token) && result.Err? ==>
                  result == Err(if q in s.requests then ReactionNotAllowed else RequestNotFound))
    ensures var (t, result) := React(s, token, q, reaction, now);
            result.Ok? ==>
              var r, info, u := s.requests[q], s.sessions[s.tokens[token]], Rewarded(s.requests[q].responder);
              var delta := Worth(reaction) - Worth(r.reaction);
              && t == s.(requests := s.requests[q := r.(reaction := reaction)],
                         ledger := s.ledger + if u.Some? && delta != 0 then [Entry(u.value, q, ReactionAdjustment, delta)] else [])
              && result.value == if info.guest then Balance(0, 0, 0) else Account(t, if u.Some? then u.value else info.user)
  {
    if q in s.requests {
      assert RequestOk(s.requests[q]);
    }
    ReactionAccepted(s, token, q, reaction, now);
    if MayReact(s, token, q, reaction, now) {
      Reacted(s, q, reaction);
    }
  }

  lemma ReactionAccepted(s: State, token: Id, q: Id, reaction: Reaction, now: int)
    requires q in s.requests && s.requests[q].completedAt.Some? ==> IsTerminal(s.requests[q].status)
    ensures React(s, token, q, reaction, now) ==
              if reaction == Unknown then (s, Err(InvalidArgument))
              else if !Knows(s, token) then (s, Err(Unauthorized))
              else if q !in s.requests then (s, Err(RequestNotFound))
              else if !MayReact(s, token, q, reaction, now) then (s, Err(ReactionNotAllowed))
              else
                var t, info, u := ApplyReaction(s, q, reaction), s.sessions[s.tokens[token]], Rewarded(s.requests[q].responder);
                (t, Ok(if info.guest then Balance(0, 0, 0) else Account(t, if u.Some? then u.value else info.user)))
  {
  }

  lemma Reacted(s: State, q: Id, reaction: Reaction)
    requires q in s.requests
    ensures var r, u := s.requests[q], Rewarded(s.requests[q].responder);
            var delta := Worth(reaction) - Worth(r.reaction);
            ApplyReaction(s, q, reaction) ==
              s.(requests := s.requests[q := r.(reaction := reaction)],
                 ledger := s.ledger + if u.Some? && delta != 0 then [Entry(u.value, q, ReactionAdjustment, delta)] else [])
  {
    assert s.ledger + [] == s.ledger;
  }

  /** The account that an answer is paid to. */
  function Rewarded(holder: Responder): Option<Id> {
    if holder.Responder? && !holder.guest && holder.user != "" then Some(holder.user) else None
  }

  /** Everything booked to an account, what its live questions hold, and the difference. */
  ghost function Account(s: State, user: Id): Balance {
    Balance(Total(s.ledger, user), Held(s.requests, user), Total(s.ledger, user) - Held(s.requests, user))
  }

  // ---------------------------------------------------------------- timeouts

  /** Assigned without an answer for too long. */
  predicate AssignmentDue(r: Request, now: int, assignedTimeout: int) {
    r.status == Assigned && assignedTimeout > 0 && now - r.updatedAt >= assignedTimeout
  }

  /** An answer begun and not continued for too long. */
  predicate StreamDue(r: Request, now: int, streamingTimeout: int) {
    r.status == Streaming && streamingTimeout > 0 && now - r.updatedAt >= streamingTimeout
  }

  predicate Due(r: Request, now: int, assignedTimeout: int, streamingTimeout: int) {
    AssignmentDue(r, now, assignedTimeout) || StreamDue(r, now, streamingTimeout)
  }

  /** What a sweep makes of one request. */
  ghost predicate Swept(r: Request, r': Request, now: int, assignedTimeout: int, streamingTimeout: int) {
    if AssignmentDue(r, now, assignedTimeout) then if r.ask.preferred != "" then GivenUp(r, r', now) else r' == Waiting(r, now)
    else if StreamDue(r, now, streamingTimeout) then Ended(r, r', TimeoutCompleted, Partial, now)
    else r' == r
  }

  lemma SweepOneExactly(s: State, q: Id, now: int, assignedTimeout: int, streamingTimeout: int)
    requires Inv(s) && q in s.requests
    ensures var (t, hit) := SweepOne(s, q, now, assignedTimeout, streamingTimeout);
            && q in t.requests && Swept(s.requests[q], t.requests[q], now, assignedTimeout, streamingTimeout)
            && t.requests == s.requests[q := t.requests[q]]
            && s.queue <= t.queue
            && (hit <==> Due(s.requests[q], now, assignedTimeout, streamingTimeout)) && (!hit ==> t == s)
  {
    assert RequestOk(s.requests[q]) && QueueOk(s);
    if s.requests[q].status == Assigned {
      WithoutAbsent(s.queue, q);
    }
    SweptRecord(s, q, now, assignedTimeout, streamingTimeout);
  }

  lemma SweptRecord(s: State, q: Id, now: int, assignedTimeout: int, streamingTimeout: int)
    requires q in s.requests && RequestOk(s.requests[q]) && (s.requests[q].status == Assigned ==> Without(s.queue, q) == s.queue)
    ensures var (t, hit) := SweepOne(s, q, now, assignedTimeout, streamingTimeout);
            && q in t.requests && Swept(s.requests[q], t.requests[q], now, assignedTimeout, streamingTimeout)
            && t.requests == s.requests[q := t.requests[q]]
            && s.queue <= t.queue
            && (hit <==> Due(s.requests[q], now, assignedTimeout, streamingTimeout)) && (!hit ==> t == s)
  {
    var r := s.requests[q];
    assert Shape(r);
    if r.status == Assigned {
      GaveUp(s, q, now);
    } else if r.status == Streaming {
      EndsExactly(s, q, Partial, now);
    }
  }

  lemma GaveUp(s: State, q: Id, now: int)
    requires q in s.requests && Without(s.queue, q) == s.queue
    ensures var t := GiveUp(s, q, now);
            && q in t.requests && t.requests == s.requests[q := t.requests[q]] && s.queue <= t.queue
            && (if s.requests[q].ask.preferred != "" then GivenUp(s.requests[q], t.requests[q], now)
                else t.requests[q] == Waiting(s.requests[q], now))
  {
  }

  /** What the visits in `order` make of the state: every visited request is swept, the others are unchanged, and what is
      taken back waits behind what was waiting. */
  ghost predicate Visited(s: State, t: State, order: seq<Id>, now: int, assignedTimeout: int, streamingTimeout: int) {
    && t.requests.Keys == s.requests.Keys && s.queue <= t.queue
    && (forall q :: q in order && q in s.requests ==> Swept(s.requests[q], t.requests[q], now, assignedTimeout, streamingTimeout))
    && (forall q :: q in s.requests && q !in order ==> t.requests[q] == s.requests[q])
  }

  lemma VisitOne(s: State, t: State, v: State, order: seq<Id>, q: Id, now: int, assignedTimeout: int, streamingTimeout: int)
    requires Visited(s, t, order, now, assignedTimeout, streamingTimeout) && q in s.requests && q !in order
    requires q in v.requests && v.requests == t.requests[q := v.requests[q]] && t.queue <= v.queue
    requires Swept(s.requests[q], v.requests[q], now, assignedTimeout, streamingTimeout)
    ensures Visited(s, v, order + [q], now, assignedTimeout, streamingTimeout)
  {
    forall p | p in s.requests
      ensures p in order + [q] ==> Swept(s.requests[p], v.requests[p], now, assignedTimeout, streamingTimeout)
      ensures p !in order + [q] ==> v.requests[p] == s.requests[p]
    {
      assert p in order + [q] <==> p in order || p == q;
    }
  }

  lemma {:induction false} SweepAllExactly(s: State, order: seq<Id>, now: int, assignedTimeout: int, streamingTimeout: int)
    requires Inv(s) && NoDup(order) && forall q :: q in order ==> q in s.requests
    ensures var (t, changed) := SweepAll(s, order, now, assignedTimeout, streamingTimeout);
            && Inv(t) && Visited(s, t, order, now, assignedTimeout, streamingTimeout)
            && (changed <==> AnyDue(s, order, now, assignedTimeout, streamingTimeout))
            && (!changed ==> t == s)
    decreases |order|
  {
    if order == [] {
      NoneVisited(s, now, assignedTimeout, streamingTimeout);
    } else {
      var n := |order| - 1;
      LastVisit(s, order, now, assignedTimeout, streamingTimeout);
      SweepAllExactly(s, order[..n], now, assignedTimeout, streamingTimeout);
      VisitLast(s, SweepAll(s, order[..n], now, assignedTimeout, streamingTimeout).0, order[..n], order[n],
                now, assignedTimeout, streamingTimeout);
    }
  }

  ghost predicate AnyDue(s: State, order: seq<Id>, now: int, assignedTimeout: int, streamingTimeout: int) {
    exists q :: q in order && q in s.requests && Due(s.requests[q], now, assignedTimeout, streamingTimeout)
  }

  lemma NoneVisited(s: State, now: int, assignedTimeout: int, streamingTimeout: int)
    ensures SweepAll(s, [], now, assignedTimeout, streamingTimeout) == (s, false)
    ensures Visited(s, s, [], now, assignedTimeout, streamingTimeout) && !AnyDue(s, [], now, assignedTimeout, streamingTimeout)
  {
  }

  lemma LastVisit(s: State, order: seq<Id>, now: int, assignedTimeout: int, streamingTimeout: int)
    requires order != [] && NoDup(order) && forall q :: q in order ==> q in s.requests
    ensures var n := |order| - 1;
            var (t, changed) := SweepAll(s, order[..n], now, assignedTimeout, streamingTimeout);
            var (v, hit) := SweepOne(t, order[n], now, assignedTimeout, streamingTimeout);
            && SweepAll(s, order, now, assignedTimeout, streamingTimeout) == (v, changed || hit)
            && order == order[..n] + [order[n]] && order[n] in s.requests && order[n] !in order[..n] && NoDup(order[..n])
            && (forall q :: q in order[..n] ==> q in s.requests)
            && (AnyDue(s, order, now, assignedTimeout, streamingTimeout) <==>
                  || AnyDue(s, order[..n], now, assignedTimeout, streamingTimeout)
                  || Due(s.requests[order[n]], now, assignedTimeout, streamingTimeout))
  {
    var n := |order| - 1;
    assert order == order[..n] + [order[n]];
    forall q | q in order ensures q in order[..n] || q == order[n] {
    }
  }

  lemma VisitLast(s: State, t: State, order: seq<Id>, q: Id, now: int, assignedTimeout: int, streamingTimeout: int)
    requires Inv(t) && Visited(s, t, order, now, assignedTimeout, streamingTimeout) && q in s.requests && q !in order
    ensures var (v, hit) := SweepOne(t, q, now, assignedTimeout, streamingTimeout);
            && Inv(v) && Visited(s, v, order + [q], now, assignedTimeout, streamingTimeout)
            && (hit <==> Due(s.requests[q], now, assignedTimeout, streamingTimeout)) && (!hit ==> v == t)
  {
    var v := SweepOne(t, q, now, assignedTimeout, streamingTimeout).0;
    SweepOneExactly(t, q, now, assignedTimeout, streamingTimeout);
    SweepOneSound(t, q, now, assignedTimeout, streamingTimeout);
    VisitOne(s, t, v, order, q, now, assignedTimeout, streamingTimeout);
  }

  /** A sweep takes exactly the requests that are due, and matches again exactly if there is one. */
  lemma SweepExactly(s: State, order: seq<Id>, now: int, assignedTimeout: int, streamingTimeout: int)
    requires Inv(s) && Enabled(s, DoSweep(order, now, assignedTimeout, streamingTimeout))
    ensures var t := SweepAll(s, order, now, assignedTimeout, streamingTimeout).0;
            && t.requests.Keys == s.requests.Keys && s.queue <= t.queue
            && (forall q :: q in s.requests ==> Swept(s.requests[q], t.requests[q], now, assignedTimeout, streamingTimeout))
            && SweepTimeouts(s, order, now, assignedTimeout, streamingTimeout) ==
                 if exists q :: q in s.requests && Due(s.requests[q], now, assignedTimeout, streamingTimeout) then TryAssign(t, now) else s
  {
    SweepAllExactly(s, order, now, assignedTimeout, streamingTimeout);
    EveryVisit(s, order, now, assignedTimeout, streamingTimeout);
  }

  lemma EveryVisit(s: State, order: seq<Id>, now: int, assignedTimeout: int, streamingTimeout: int)
    requires forall q :: q in order <==> q in s.requests
    ensures AnyDue(s, order, now, assignedTimeout, streamingTimeout) <==>
              exists q :: q in s.requests && Due(s.requests[q], now, assignedTimeout, streamingTimeout)
  {
  }

  /** The requests that the visits in `order` take, in that order. */
  function Hits(s: State, order: seq<Id>, now: int, assignedTimeout: int, streamingTimeout: int): seq<Id> {
    if order == [] then []
    else
      var n := |order| - 1;
      var t, rest := SweepAll(s, order[..n], now, assignedTimeout, streamingTimeout).0, Hits(s, order[..n], now, assignedTimeout, streamingTimeout);
      if SweepOne(t, order[n], now, assignedTimeout, streamingTimeout).1 then rest + [order[n]] else rest
  }

  lemma HitsAppend(s: State, order: seq<Id>, q: Id, now: int, assignedTimeout: int, streamingTimeout: int)
    ensures var (t, changed) := SweepAll(s, order, now, assignedTimeout, streamingTimeout);
            var (v, hit) := SweepOne(t, q, now, assignedTimeout, streamingTimeout);
            && SweepAll(s, order + [q], now, assignedTimeout, streamingTimeout) == (v, changed || hit)
            && Hits(s, order + [q], now, assignedTimeout, streamingTimeout) ==
                 Hits(s, order, now, assignedTimeout, streamingTimeout) + if hit then [q] else []
  {
    assert (order + [q])[..|order|] == order;
    assert Hits(s, order, now, assignedTimeout, streamingTimeout) + [] == Hits(s, order, now, assignedTimeout, streamingTimeout);
  }

  /** The requests taken are those that were due before the sweep began, each once. */
  lemma {:induction false} HitsAreDue(s: State, order: seq<Id>, now: int, assignedTimeout: int, streamingTimeout: int)
    requires Inv(s) && NoDup(order) && forall q :: q in order ==> q in s.requests
    ensures Listed(s, order, Hits(s, order, now, assignedTimeout, streamingTimeout), now, assignedTimeout, streamingTimeout)
    decreases |order|
  {
    if order != [] {
      var n := |order| - 1;
      LastVisit(s, order, now, assignedTimeout, streamingTimeout);
      HitsAreDue(s, order[..n], now, assignedTimeout, streamingTimeout);
      SweepAllExactly(s, order[..n], now, assignedTimeout, streamingTimeout);
      VisitLast(s, SweepAll(s, order[..n], now, assignedTimeout, streamingTimeout).0, order[..n], order[n],
                now, assignedTimeout, streamingTimeout);
      HitsAppend(s, order[..n], order[n], now, assignedTimeout, streamingTimeout);
      ListOne(s, order[..n], Hits(s, order[..n], now, assignedTimeout, streamingTimeout), order[n], now, assignedTimeout, streamingTimeout);
    }
  }

  ghost predicate Listed(s: State, order: seq<Id>, hits: seq<Id>, now: int, assignedTimeout: int, streamingTimeout: int) {
    && NoDup(hits)
    && forall q :: q in hits <==> q in order && q in s.requests && Due(s.requests[q], now, assignedTimeout, streamingTimeout)
  }

  lemma ListOne(s: State, order: seq<Id>, hits: seq<Id>, q: Id, now: int, assignedTimeout: int, streamingTimeout: int)
    requires Listed(s, order, hits, now, assignedTimeout, streamingTimeout) && q in s.requests && q !in order
    ensures var hit := Due(s.requests[q], now, assignedTimeout, streamingTimeout);
            Listed(s, order + [q], hits + if hit then [q] else [], now, assignedTimeout, streamingTimeout)
  {
    assert hits + [] == hits;
    forall p ensures p in order + [q] <==> p in order || p == q {
    }
  }

  // ---------------------------------------------------------------- channels

  /** A subscriber finds the answer so far in one piece, if there is any, and the end with the stored reason, if it came. */
  lemma SubscribeExactly(s: State, q: Id, sub: Id)
    requires Inv(s)
    ensures var (t, result) := Subscribe(s, q, sub);
            if q !in s.requests then t == s && result == Err(RequestNotFound)
            else
              && result == Ok(()) && q in t.requests && sub in t.requests[q].subscribers
              && t == s.(requests := s.requests[q := s.requests[q].(subscribers := s.requests[q].subscribers[sub := t.requests[q].subscribers[sub]])])
              && Found(s.requests[q], t.requests[q].subscribers[sub])
  {
    if q in s.requests {
      assert RequestOk(s.requests[q]);
      ReplayIsFound(s.requests[q]);
    }
  }

  lemma ReplayIsFound(r: Request)
    requires AnswerOk(r)
    ensures Found(r, Subscriber(Replay(r), |Replay(r)|, false, IsTerminal(r.status)))
  {
    if r.fragments != [] {
      assert r.fragments[|r.fragments| - 1] in r.fragments;
    }
  }

  ghost predicate Found(r: Request, u: Subscriber) {
    var ended := r.status == Completed || r.status == TimeoutCompleted || r.status == Abandoned;
    && u.pending == |u.log| && !u.lost && u.late == ended
    && u.log == if r.fragments == [] then if ended then [Done(r.finish)] else []
                else if ended then [Text(AnswerText(r.fragments)), Done(r.finish)] else [Text(AnswerText(r.fragments))]
  }

  /** Taking an event or an assignment from a channel makes room for one, and changes nothing else. */
  lemma TakeExactly(s: State, q: Id, sub: Id, a: Id)
    ensures var t := ReceiveEvent(s, q, sub);
            if q in s.requests && sub in s.requests[q].subscribers && s.requests[q].subscribers[sub].pending > 0 then
              var r, u := s.requests[q], s.requests[q].subscribers[sub];
              t == s.(requests := s.requests[q := r.(subscribers := r.subscribers[sub := u.(pending := u.pending - 1)])])
            else t == s
    ensures var t := ReceiveAssignment(s, a);
            if a in s.responders && s.responders[a] != [] then t == s.(responders := s.responders[a := s.responders[a][1..]]) else t == s
  {
    if q in s.requests {
      assert s.requests[q := s.requests[q]] == s.requests;
    }
  }
}
