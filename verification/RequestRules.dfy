/** What holds of one request in every reachable state, and how one request may change. */
module RequestRules {
  import opened Sequences
  import opened Domain

  predicate IsHeld(status: Status) {
    status == Assigned || status == Streaming
  }

  /** Status, responder, answer, money and outcome fit together. */
  ghost predicate Shape(r: Request) {
    && (r.responder.Nobody? <==> r.status == Queued || r.status == Abandoned)
    && (r.fragments == [] <==> r.status == Queued || r.status == Assigned || r.status == Abandoned)
    && (r.charged <==> r.fragments != [])
    && r.frozen == (if r.ask.guest || r.charged || r.status == Abandoned then 0 else QUESTION_COST)
    && (r.completedAt.Some? <==> r.status == Completed || r.status == TimeoutCompleted)
    && (r.status == Completed ==> r.finish == Stop || r.finish == Length)
    && (r.status == TimeoutCompleted ==> r.finish == Partial)
    && (r.completedAt.None? ==> r.finish == NoReason && r.reaction == Neutral)
    && r.reaction != Unknown
  }

  /** The answer stays below its limit while the request is live, and only a full answer ends with `Length`. */
  ghost predicate WithinLimit(r: Request) {
    var n := |AnswerText(r.fragments)|;
    && 1 <= r.ask.limit <= OUTPUT_LIMIT
    && n <= r.ask.limit
    && (!IsTerminal(r.status) ==> n < r.ask.limit)
    && (r.finish == Length <==> n == r.ask.limit)
  }

  /** All fragments come from the current responder, and the idempotency index is the fragment list. */
  ghost predicate AnswerOk(r: Request) {
    && (forall f :: f in r.fragments ==> f.text != "" && f.clientSeq > 0 && r.responder.Responder? && f.session == r.responder.session)
    && (forall f :: f in r.fragments ==> f.clientSeq > 0 && SeqKey(f.session, f.clientSeq) in r.seen
                                         && r.seen[SeqKey(f.session, f.clientSeq)] == f)
    && (forall k :: k in r.seen ==> r.seen[k] in r.fragments && r.seen[k].clientSeq > 0
                                    && k == SeqKey(r.seen[k].session, r.seen[k].clientSeq))
    && NoDup(r.fragments)
  }

  /** Who may hold a request: AI only where it is welcome, personas never for personas, and only the
      preferred session for a targeted request. */
  ghost predicate MayHold(ask: Ask, responder: Responder) {
    responder.Responder? ==>
      && (responder.kind == AiPersona || responder.kind == Fallback ==> ask.allowAi)
      && (ask.kind == AiPersona ==> responder.kind != AiPersona)
      && (ask.preferred != "" ==> responder.session == ask.preferred)
      && (responder.guest <==> responder.user == "")
      && responder.kind != Unset
  }

  // ---------------------------------------------------------------- subscribers

  ghost predicate OnlyText(log: seq<Event>) {
    forall i :: 0 <= i < |log| ==> log[i].Text?
  }

  /** The log carries the whole answer, and exactly one end marker, last, if the request has ended. */
  ghost predicate Delivered(log: seq<Event>, answer: string, ended: bool) {
    && LogText(log) == answer
    && (if ended then |log| > 0 && log[|log| - 1].Done? && OnlyText(log[..|log| - 1]) else OnlyText(log))
  }

  /** The reason in an end marker: the stored one, except that an abandonment tells those who are listening
      that the answer stopped, and stores no reason. */
  ghost predicate ToldOk(r: Request, u: Subscriber, told: Reason) {
    && (r.status != Abandoned ==> told == r.finish)
    && (r.status == Abandoned ==> told == if u.late then NoReason else Stop)
  }

  ghost predicate SubscriberOk(r: Request, u: Subscriber) {
    && (u.late ==> IsTerminal(r.status))
    && u.pending <= SUBSCRIBER_CAPACITY
    && (!u.lost ==> Delivered(u.log, AnswerText(r.fragments), IsTerminal(r.status)))
    && (u.lost ==> |LogText(u.log)| < |AnswerText(r.fragments)| || (IsTerminal(r.status) && OnlyText(u.log)))
    && (forall i :: 0 <= i < |u.log| && u.log[i].Done? ==>
          IsTerminal(r.status) && i == |u.log| - 1 && ToldOk(r, u, u.log[i].reason))
  }

  ghost predicate StreamsOk(r: Request) {
    forall k :: k in r.subscribers ==> SubscriberOk(r, r.subscribers[k])
  }

  ghost predicate RequestOk(r: Request) {
    Shape(r) && WithinLimit(r) && AnswerOk(r) && MayHold(r.ask, r.responder) && StreamsOk(r)
  }

  // ---------------------------------------------------------------- change over time

  /** How a request may change: the question never, the answer only by appending, nothing of either
      after the end, and no way back to the queue once there is an answer. */
  ghost predicate Evolves(a: Request, b: Request) {
    && b.ask == a.ask
    && a.fragments <= b.fragments
    && (a.charged ==> b.charged)
    && (IsTerminal(a.status) ==>
          && b.status == a.status && b.fragments == a.fragments && b.responder == a.responder
          && b.finish == a.finish && b.completedAt == a.completedAt)
    && (a.fragments != [] ==> b.responder == a.responder && b.status != Queued && b.status != Assigned && b.status != Abandoned)
  }

  lemma EvolvesTransitive(a: Request, b: Request, c: Request)
    requires Evolves(a, b) && Evolves(b, c)
    ensures Evolves(a, c)
  {
  }

  // ---------------------------------------------------------------- transitions keep the rules

  lemma AnswerAppend(fragments: seq<Fragment>, f: Fragment)
    ensures AnswerText(fragments + [f]) == AnswerText(fragments) + f.text
  {
    assert (fragments + [f])[..|fragments|] == fragments;
  }

  lemma LogAppend(log: seq<Event>, e: Event)
    ensures LogText(log + [e]) == LogText(log) + (match e case Text(t) => t case Done(_) => "")
  {
    assert (log + [e])[..|log|] == log;
  }

  lemma AssignKeepsRules(r: Request, holder: Responder, now: int)
    requires RequestOk(r) && r.status == Queued
    requires holder.Responder? && MayHold(r.ask, holder)
    ensures RequestOk(AssignRequest(r, holder, now)) && Evolves(r, AssignRequest(r, holder, now))
  {
    var r' := AssignRequest(r, holder, now);
    forall k | k in r'.subscribers ensures SubscriberOk(r', r'.subscribers[k]) {
      assert SubscriberOk(r, r.subscribers[k]);
    }
  }

  lemma RequeueKeepsRules(r: Request, now: int)
    requires RequestOk(r) && r.status == Assigned
    ensures RequestOk(RequeueRequest(r, now)) && Evolves(r, RequeueRequest(r, now))
  {
    var r' := RequeueRequest(r, now);
    forall k | k in r'.subscribers ensures SubscriberOk(r', r'.subscribers[k]) {
      assert SubscriberOk(r, r.subscribers[k]);
    }
  }

  /** The end marker reaches every subscriber whose buffer has room. */
  lemma DoneKeepsSubscribers(r: Request, r': Request, reason: Reason)
    requires StreamsOk(r) && !IsTerminal(r.status) && IsTerminal(r'.status)
    requires r'.fragments == r.fragments && r'.subscribers == Publish(r.subscribers, Done(reason))
    requires r'.status == Abandoned ==> reason == Stop
    requires r'.status != Abandoned ==> r'.finish == reason
    ensures StreamsOk(r')
  {
    forall k | k in r'.subscribers ensures SubscriberOk(r', r'.subscribers[k]) {
      var u, u' := r.subscribers[k], r'.subscribers[k];
      assert SubscriberOk(r, u);
      LogAppend(u.log, Done(reason));
      assert (u.log + [Done(reason)])[..|u.log|] == u.log;
    }
  }

  lemma AbandonKeepsRules(r: Request, now: int)
    requires RequestOk(r) && !IsTerminal(r.status) && r.fragments == []
    ensures RequestOk(AbandonRequest(r, now)) && Evolves(r, AbandonRequest(r, now))
  {
    DoneKeepsSubscribers(r, AbandonRequest(r, now), Stop);
  }

  /** Completion, also straight after the fragment that filled the answer. */
  lemma CompleteKeepsRules(r: Request, reason: Reason, now: int)
    requires Shape(r) && AnswerOk(r) && MayHold(r.ask, r.responder) && StreamsOk(r)
    requires r.status == Streaming && reason != NoReason
    requires 1 <= r.ask.limit <= OUTPUT_LIMIT && |AnswerText(r.fragments)| <= r.ask.limit
    requires reason == Length <==> |AnswerText(r.fragments)| == r.ask.limit
    ensures RequestOk(CompleteRequest(r, reason, now)) && Evolves(r, CompleteRequest(r, reason, now))
  {
    DoneKeepsSubscribers(r, CompleteRequest(r, reason, now), reason);
  }

  lemma AppendServes(r: Request, f: Fragment, u: Subscriber)
    requires SubscriberOk(r, u) && !IsTerminal(r.status) && f.text != "" && f.clientSeq > 0
    ensures SubscriberOk(AppendFragment(r, f), Push(u, Text(f.text)))
  {
    var r', u' := AppendFragment(r, f), Push(u, Text(f.text));
    AnswerAppend(r.fragments, f);
    LogAppend(u.log, Text(f.text));
    assert !IsTerminal(r'.status) && OnlyText(u.log) by {
      assert forall i :: 0 <= i < |u.log| ==> u.log[i].Text?;
    }
    assert !u.lost ==> LogText(u.log) == AnswerText(r.fragments);
    assert OnlyText(u'.log);
  }

  lemma AppendKeepsSubscribers(r: Request, f: Fragment)
    requires StreamsOk(r) && !IsTerminal(r.status) && f.text != "" && f.clientSeq > 0
    ensures StreamsOk(AppendFragment(r, f))
  {
    var r' := AppendFragment(r, f);
    forall k | k in r'.subscribers ensures SubscriberOk(r', r'.subscribers[k]) {
      AppendServes(r, f, r.subscribers[k]);
    }
  }

  lemma AppendKeepsAnswer(r: Request, f: Fragment)
    requires AnswerOk(r) && r.responder.Responder? && f.session == r.responder.session
    requires f.text != "" && f.clientSeq > 0 && SeqKey(f.session, f.clientSeq) !in r.seen
    ensures AnswerOk(AppendFragment(r, f))
  {
    var r', key := AppendFragment(r, f), SeqKey(f.session, f.clientSeq);
    assert f !in r.fragments;
    forall g | g in r.fragments ensures r'.seen[SeqKey(g.session, g.clientSeq)] == g {
      assert SeqKey(g.session, g.clientSeq) != key;
    }
  }

  lemma AppendShape(r: Request, f: Fragment)
    requires Shape(r) && IsHeld(r.status) && f.clientSeq > 0
    ensures var r' := AppendFragment(r, f);
            Shape(r') && Evolves(r, r') && r'.status == Streaming && r'.responder == r.responder
  {
  }

  /** A new fragment from the responder keeps every rule except, at the limit, that a live answer is short. */
  lemma AppendKeepsRules(r: Request, f: Fragment)
    requires RequestOk(r) && IsHeld(r.status) && f.session == r.responder.session
    requires f.text != "" && f.clientSeq > 0 && SeqKey(f.session, f.clientSeq) !in r.seen
    requires |AnswerText(r.fragments)| + |f.text| <= r.ask.limit
    ensures var r' := AppendFragment(r, f);
            && Shape(r') && AnswerOk(r') && MayHold(r'.ask, r'.responder) && StreamsOk(r') && Evolves(r, r')
            && r'.status == Streaming
            && |AnswerText(r'.fragments)| == |AnswerText(r.fragments)| + |f.text|
            && (|AnswerText(r'.fragments)| < r'.ask.limit ==> RequestOk(r'))
  {
    AppendShape(r, f);
    AppendKeepsAnswer(r, f);
    AppendKeepsSubscribers(r, f);
    AppendLimit(r, f);
  }

  lemma AppendLimit(r: Request, f: Fragment)
    requires Shape(r) && WithinLimit(r) && IsHeld(r.status) && f.clientSeq > 0
    requires |AnswerText(r.fragments)| + |f.text| <= r.ask.limit
    ensures var r' := AppendFragment(r, f);
            && |AnswerText(r'.fragments)| == |AnswerText(r.fragments)| + |f.text|
            && (|AnswerText(r'.fragments)| < r'.ask.limit ==> WithinLimit(r'))
  {
    AnswerAppend(r.fragments, f);
  }

  lemma ReactionKeepsRules(r: Request, reaction: Reaction)
    requires RequestOk(r) && r.completedAt.Some? && reaction != Unknown
    ensures RequestOk(r.(reaction := reaction)) && Evolves(r, r.(reaction := reaction))
  {
    var r' := r.(reaction := reaction);
    forall k | k in r'.subscribers ensures SubscriberOk(r', r'.subscribers[k]) {
      assert SubscriberOk(r, r.subscribers[k]);
    }
  }

  /** Replacing the subscribers by well-served ones changes nothing else. */
  lemma SubscribersKeepRules(r: Request, subscribers: map<Id, Subscriber>)
    requires RequestOk(r)
    requires forall k :: k in subscribers ==> SubscriberOk(r, subscribers[k])
    ensures RequestOk(r.(subscribers := subscribers)) && Evolves(r, r.(subscribers := subscribers))
  {
    var r' := r.(subscribers := subscribers);
    forall k | k in r'.subscribers ensures SubscriberOk(r', r'.subscribers[k]) {
      assert SubscriberOk(r, subscribers[k]);
    }
  }
}
