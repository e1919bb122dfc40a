/** A persona's conversation over several turns: the loop that posts follow-up questions, and what it means in runs
    of the service where anything else happens in between.  Every turn has the same responder, and every question
    carries the full, strictly alternating transcript. */
module Conversation {
  import opened Sequences
  import opened Domain

  // ---------------------------------------------------------------- white space

  predicate IsSpace(c: char) {
    c == ' ' || '\t' <= c <= '\r' || c == '\U{0085}' || c == '\U{00A0}' || c == '\U{1680}' || '\U{2000}' <= c <= '\U{200A}'
    || c == '\U{2028}' || c == '\U{2029}' || c == '\U{202F}' || c == '\U{205F}' || c == '\U{3000}'
  }

  function TrimLeft(s: string): string {
    if s != "" && IsSpace(s[0]) then TrimLeft(s[1..]) else s
  }

  function TrimRight(s: string): string {
    if s != "" && IsSpace(s[|s| - 1]) then TrimRight(s[..|s| - 1]) else s
  }

  function TrimSpace(s: string): string {
    TrimRight(TrimLeft(s))
  }

  // ---------------------------------------------------------------- waiting for an answer

  /** What one poll finds; `late` says that the time a follow-up may stay queued has run out. */
  datatype Poll = Missing | Seen(status: Status, kind: Kind, responder: Id, answer: string, late: bool)

  datatype Waited = GaveUp(cancel: bool) | Answered(responder: Id, answer: string)

  /** The waiting goes on after a poll that finds the request still on its way. */
  predicate Waits(p: Poll) {
    p.Seen? && !IsTerminal(p.status) && !(p.status == Queued && p.late)
  }

  /** A human has completed the request with something to say. */
  predicate HasAnswer(p: Poll) {
    p.Seen? && p.status == Completed && p.kind == Human && p.responder != "" && TrimSpace(p.answer) != ""
  }

  /** What waiting yields is decided by the first poll that does not find the request on its way. */
  function Wait(polls: seq<Poll>): Waited {
    var i := IndexOf(polls, p => !Waits(p));
    if i == |polls| then GaveUp(false)
    else if HasAnswer(polls[i]) then Answered(polls[i].responder, TrimSpace(polls[i].answer))
    else GaveUp(polls[i].Seen? && polls[i].status == Queued)
  }

  lemma FirstDecides(polls: seq<Poll>, i: nat)
    requires i <= |polls| && (forall k :: 0 <= k < i ==> Waits(polls[k])) && (i < |polls| ==> !Waits(polls[i]))
    ensures IndexOf(polls, p => !Waits(p)) == i
  {
  }

  /** The request is found queued in time, assigned or streaming. */
  predicate OnItsWay(p: Poll) {
    p.Seen? && ((p.status == Queued && !p.late) || p.status == Assigned || p.status == Streaming)
  }

  /** Poll `i` is the first that does not find the request on its way. */
  ghost predicate Decides(polls: seq<Poll>, i: nat) {
    i < |polls| && !OnItsWay(polls[i]) && forall k :: 0 <= k < i ==> OnItsWay(polls[k])
  }

  /** The waiting exactly: an answer is taken from a human that completed the request, without the white space around it
      and only if something is left; a question queued too long is to be withdrawn; anything else is given up. */
  lemma WaitExactly(polls: seq<Poll>, i: nat)
    requires Decides(polls, i)
    ensures var p, w := polls[i], Wait(polls);
            && (w.Answered? <==> p.Seen? && p.status == Completed && p.kind == Human && p.responder != "" && TrimSpace(p.answer) != "")
            && (w.Answered? ==> w.responder == p.responder && w.answer == TrimSpace(p.answer))
            && (w == GaveUp(true) <==> p.Seen? && p.status == Queued && p.late)
  {
    assert forall k :: 0 <= k < i ==> Waits(polls[k]);
    FirstDecides(polls, i);
  }

  lemma WaitInVain(polls: seq<Poll>)
    requires forall k :: 0 <= k < |polls| ==> OnItsWay(polls[k])
    ensures Wait(polls) == GaveUp(false)
  {
    assert forall k :: 0 <= k < |polls| ==> Waits(polls[k]);
    FirstDecides(polls, |polls|);
  }

  /** Trimming cuts off exactly the white space at both ends. */
  lemma TrimExactly(s: string)
    ensures exists i, j :: 0 <= i <= j <= |s| && TrimSpace(s) == s[i..j]
              && (forall k :: 0 <= k < i || j <= k < |s| ==> IsSpace(s[k]))
    ensures var t := TrimSpace(s); t != "" ==> !IsSpace(t[0]) && !IsSpace(t[|t| - 1])
  {
    var i := TrimsLeft(s);
    var j := TrimsRight(TrimLeft(s));
    var k := i + j;
    assert TrimSpace(s) == s[i..][..j] == s[i..k];
    assert forall m :: k <= m < |s| ==> s[m] == s[i..][m - i];
  }

  lemma {:induction false} TrimsLeft(s: string) returns (i: nat)
    ensures i <= |s| && TrimLeft(s) == s[i..] && forall k :: 0 <= k < i ==> IsSpace(s[k])
    ensures TrimLeft(s) != "" ==> !IsSpace(TrimLeft(s)[0])
  {
    i := 0;
    if s != "" && IsSpace(s[0]) {
      i := TrimsLeft(s[1..]);
      assert s[1..][i..] == s[i + 1..];
      assert forall k :: 1 <= k <= i ==> s[k] == s[1..][k - 1];
      i := i + 1;
    }
  }

  lemma {:induction false} TrimsRight(s: string) returns (j: nat)
    ensures j <= |s| && TrimRight(s) == s[..j] && forall k :: j <= k < |s| ==> IsSpace(s[k])
    ensures TrimRight(s) != "" ==> TrimRight(s)[0] == s[0] && !IsSpace(s[j - 1])
  {
    j := |s|;
    if s != "" && IsSpace(s[|s| - 1]) {
      j := TrimsRight(s[..|s| - 1]);
    }
  }

  /** The polling loop; the polls end where the context does. */
  method WaitForPersonaAnswer(polls: seq<Poll>) returns (w: Waited)
    ensures w == Wait(polls)
  {
    for i := 0 to |polls|
      invariant forall k :: 0 <= k < i ==> Waits(polls[k])
    {
      var p := polls[i];
      if !Waits(p) {
        FirstDecides(polls, i);
      }
      if p.Missing? {
        return GaveUp(false);
      }
      if p.status == Completed {
        var answer := TrimSpace(p.answer);
        if answer == "" || p.kind != Human || p.responder == "" {
          return GaveUp(false);
        }
        return Answered(p.responder, answer);
      }
      if p.status == Abandoned || p.status == TimeoutCompleted {
        return GaveUp(false);
      }
      if p.status == Queued && p.late {
        return GaveUp(true);
      }
    }
    FirstDecides(polls, |polls|);
    return GaveUp(false);
  }

  // ---------------------------------------------------------------- the loop

  datatype Exchange = Exchange(responder: Id, answer: string, question: string) {
    function Messages(): seq<Message> { [Message("assistant", answer), Message("user", question)] }
  }

  /** The transcript after some exchanges. */
  function History(first: seq<Message>, exchanges: seq<Exchange>): seq<Message> {
    if exchanges == [] then first
    else History(first, exchanges[..|exchanges| - 1]) + exchanges[|exchanges| - 1].Messages()
  }

  /** What the world answers in one turn: the polls, the next question (empty if there is none), the follow-up
      request if it could be created, and whether the responder could be resumed. */
  datatype Round = Round(polls: seq<Poll>, question: string, created: Option<Id>, resumed: bool)

  datatype Call = Create(messages: seq<Message>, preferred: Id) | Resume(responder: Id) | Cancel(request: Id)

  /** The calls of a turn that was answered. */
  function TurnCalls(r: Round, history: seq<Message>, e: Exchange): seq<Call> {
    if r.question == "" then [Resume(e.responder)]
    else [Create(history + e.Messages(), e.responder), Resume(e.responder)]
         + (if r.created.Some? && !r.resumed then [Cancel(r.created.value)] else [])
  }

  predicate GoesOn(r: Round) {
    r.question != "" && r.created.Some? && r.resumed
  }

  /** The exchanges of a conversation: turns follow each other while they are answered and lead to a follow-up. */
  function Exchanges(rounds: seq<Round>): (r: seq<Exchange>)
    ensures |r| <= |rounds|
  {
    if rounds == [] then []
    else match Wait(rounds[0].polls)
      case GaveUp(_) => []
      case Answered(responder, answer) =>
        [Exchange(responder, answer, rounds[0].question)] + (if GoesOn(rounds[0]) then Exchanges(rounds[1..]) else [])
  }

  /** The calls of the answered turns, each with its transcript. */
  function TurnsCalls(first: seq<Message>, rounds: seq<Round>, exchanges: seq<Exchange>): seq<Call>
    requires |exchanges| <= |rounds|
  {
    if exchanges == [] then []
    else
      var n := |exchanges| - 1;
      TurnsCalls(first, rounds, exchanges[..n]) + TurnCalls(rounds[n], History(first, exchanges[..n]), exchanges[n])
  }

  /** The request of turn `n`. */
  function Current(first: Id, rounds: seq<Round>, n: nat): Id
    requires n <= |rounds|
  {
    if n > 0 && rounds[n - 1].created.Some? then rounds[n - 1].created.value else first
  }

  /** A follow-up that stays queued too long is withdrawn. */
  function LastCalls(first: Id, rounds: seq<Round>, n: nat): seq<Call>
    requires n <= |rounds|
  {
    if n < |rounds| && (n > 0 ==> GoesOn(rounds[n - 1])) && Wait(rounds[n].polls) == GaveUp(true)
    then [Cancel(Current(first, rounds, n))] else []
  }

  /** One more turn at the end. */
  lemma AddTurn(first: seq<Message>, rounds: seq<Round>, done: seq<Exchange>, e: Exchange)
    requires |done| < |rounds|
    ensures TurnsCalls(first, rounds, done + [e]) == TurnsCalls(first, rounds, done) + TurnCalls(rounds[|done|], History(first, done), e)
    ensures History(first, done + [e]) == History(first, done) + e.Messages()
  {
    assert (done + [e])[..|done|] == done;
  }

  /** What the turn after `done` makes of the rest. */
  lemma TurnAt(rounds: seq<Round>, done: seq<Exchange>, n: nat)
    requires n < |rounds| && Exchanges(rounds) == done + Exchanges(rounds[n..])
    ensures match Wait(rounds[n].polls)
            case GaveUp(_) => Exchanges(rounds) == done
            case Answered(responder, answer) =>
              Exchanges(rounds) == done + [Exchange(responder, answer, rounds[n].question)]
                                   + (if GoesOn(rounds[n]) then Exchanges(rounds[n + 1..]) else [])
  {
    assert rounds[n..][0] == rounds[n] && rounds[n..][1..] == rounds[n + 1..];
  }

  // ---------------------------------------------------------------- what the calls are

  function IsCreate(): Call -> bool {
    (c: Call) => c.Create?
  }

  function IsResume(): Call -> bool {
    (c: Call) => c.Resume?
  }

  function IsCancel(): Call -> bool {
    (c: Call) => c.Cancel?
  }

  function Creates(calls: seq<Call>): seq<Call> {
    Filter(calls, IsCreate())
  }

  function Resumes(calls: seq<Call>): seq<Call> {
    Filter(calls, IsResume())
  }

  function Cancels(calls: seq<Call>): seq<Call> {
    Filter(calls, IsCancel())
  }

  lemma CallsAppend(a: seq<Call>, b: seq<Call>)
    ensures Creates(a + b) == Creates(a) + Creates(b) && Resumes(a + b) == Resumes(a) + Resumes(b)
    ensures Cancels(a + b) == Cancels(a) + Cancels(b)
  {
    FilterAppend(a, b, IsCreate());
    FilterAppend(a, b, IsResume());
    FilterAppend(a, b, IsCancel());
  }

  lemma OneCall(c: Call)
    ensures Creates([c]) == (if c.Create? then [c] else []) && Resumes([c]) == (if c.Resume? then [c] else [])
    ensures Cancels([c]) == if c.Cancel? then [c] else []
  {
    assert [c][1..] == [];
    assert Creates([]) == [] && Resumes([]) == [] && Cancels([]) == [];
    assert Creates([c]) == (if c.Create? then [c] else []) + Creates([]);
    assert Resumes([c]) == (if c.Resume? then [c] else []) + Resumes([]);
    assert Cancels([c]) == (if c.Cancel? then [c] else []) + Cancels([]);
  }

  /** The follow-ups of some exchanges: one for each that has a question, with the transcript up to and with it, for the
      responder that answered in it. */
  function Posts(first: seq<Message>, exchanges: seq<Exchange>): seq<Call> {
    if exchanges == [] then []
    else
      var n := |exchanges| - 1;
      Posts(first, exchanges[..n]) +
      (if exchanges[n].question == "" then [] else [Create(History(first, exchanges), exchanges[n].responder)])
  }

  function Resumptions(exchanges: seq<Exchange>): seq<Call> {
    seq(|exchanges|, i requires 0 <= i < |exchanges| => Resume(exchanges[i].responder))
  }

  /** The calls of one answered turn by kind: the follow-up if there is a question, one resumption in any case, and the
      withdrawal of a follow-up whose responder is gone. */
  lemma TurnMeans(r: Round, history: seq<Message>, e: Exchange)
    ensures var calls := TurnCalls(r, history, e);
            && Creates(calls) == (if r.question == "" then [] else [Create(history + e.Messages(), e.responder)])
            && Resumes(calls) == [Resume(e.responder)]
            && Cancels(calls) == (if r.question != "" && r.created.Some? && !r.resumed then [Cancel(r.created.value)] else [])
            && calls == Creates(calls) + Resumes(calls) + Cancels(calls)
  {
    var create, resume := Create(history + e.Messages(), e.responder), Resume(e.responder);
    OneCall(create);
    OneCall(resume);
    CallsAppend([create], [resume]);
    assert [create] + [resume] == [create, resume];
    if r.created.Some? && !r.resumed {
      OneCall(Cancel(r.created.value));
      CallsAppend([create, resume], [Cancel(r.created.value)]);
    } else {
      assert [create, resume] + [] == [create, resume];
    }
  }

  lemma {:induction false} TurnsMean(first: seq<Message>, rounds: seq<Round>, exchanges: seq<Exchange>)
    requires |exchanges| <= |rounds| && forall i :: 0 <= i < |exchanges| ==> exchanges[i].question == rounds[i].question
    ensures Creates(TurnsCalls(first, rounds, exchanges)) == Posts(first, exchanges)
    ensures Resumes(TurnsCalls(first, rounds, exchanges)) == Resumptions(exchanges)
    decreases |exchanges|
  {
    if exchanges != [] {
      var n := |exchanges| - 1;
      var before, e := exchanges[..n], exchanges[n];
      TurnsMean(first, rounds, before);
      TurnMeans(rounds[n], History(first, before), e);
      CallsAppend(TurnsCalls(first, rounds, before), TurnCalls(rounds[n], History(first, before), e));
      assert Resumptions(exchanges) == Resumptions(before) + [Resume(e.responder)];
    }
  }

  lemma {:induction false} ExchangesAre(rounds: seq<Round>)
    ensures forall i :: 0 <= i < |Exchanges(rounds)| ==> Exchanges(rounds)[i].question == rounds[i].question
    ensures forall i :: 0 <= i < |Exchanges(rounds)| - 1 ==> GoesOn(rounds[i])
    ensures forall i :: 0 <= i < |Exchanges(rounds)| ==> Wait(rounds[i].polls).Answered?
    decreases |rounds|
  {
    if rounds != [] && Wait(rounds[0].polls).Answered? {
      ExchangesAre(rounds[1..]);
    }
  }

  /** While turns are answered and go on, exchange `n` is that of round `n`. */
  lemma {:induction false} ExchangeAt(rounds: seq<Round>, n: nat)
    requires n < |rounds| && Wait(rounds[n].polls).Answered?
    requires forall i :: 0 <= i < n ==> Wait(rounds[i].polls).Answered? && GoesOn(rounds[i])
    ensures n < |Exchanges(rounds)|
    ensures var w := Wait(rounds[n].polls); Exchanges(rounds)[n] == Exchange(w.responder, w.answer, rounds[n].question)
    decreases n
  {
    if n > 0 {
      assert forall i :: 0 <= i < n - 1 ==> rounds[1..][i] == rounds[i + 1];
      ExchangeAt(rounds[1..], n - 1);
    }
  }

  /** Round `n` is reached, answered and counts as an exchange exactly if it and all rounds before it were answered, and
      each of those led to a follow-up whose responder could be resumed. */
  lemma ExchangesExactly(rounds: seq<Round>, n: nat)
    requires n < |rounds|
    ensures n < |Exchanges(rounds)| <==>
              && (forall i :: 0 <= i <= n ==> Wait(rounds[i].polls).Answered?)
              && (forall i :: 0 <= i < n ==> rounds[i].question != "" && rounds[i].created.Some? && rounds[i].resumed)
  {
    ExchangesAre(rounds);
    if (forall i :: 0 <= i <= n ==> Wait(rounds[i].polls).Answered?) && forall i :: 0 <= i < n ==> GoesOn(rounds[i]) {
      ExchangeAt(rounds, n);
    }
  }

  /** What the loop withdraws: a question that stayed queued too long, or a follow-up whose responder is gone. */
  function Withdrawn(first: Id, rounds: seq<Round>, n: nat): seq<Call>
    requires n <= |rounds|
  {
    if n > 0 && !(rounds[n - 1].question != "" && rounds[n - 1].created.Some? && rounds[n - 1].resumed) then
      if rounds[n - 1].question != "" && rounds[n - 1].created.Some? then [Cancel(rounds[n - 1].created.value)] else []
    else if n < |rounds| && Wait(rounds[n].polls) == GaveUp(true) then
      [Cancel(if n > 0 then rounds[n - 1].created.value else first)]
    else []
  }

  lemma {:induction false} NoneWithdrawn(first: seq<Message>, rounds: seq<Round>, exchanges: seq<Exchange>)
    requires |exchanges| <= |rounds| && forall i :: 0 <= i < |exchanges| ==> GoesOn(rounds[i])
    ensures Cancels(TurnsCalls(first, rounds, exchanges)) == []
    decreases |exchanges|
  {
    if exchanges != [] {
      var n := |exchanges| - 1;
      NoneWithdrawn(first, rounds, exchanges[..n]);
      TurnMeans(rounds[n], History(first, exchanges[..n]), exchanges[n]);
      CallsAppend(TurnsCalls(first, rounds, exchanges[..n]), TurnCalls(rounds[n], History(first, exchanges[..n]), exchanges[n]));
    }
  }

  /** The withdrawals among the calls of the loop. */
  lemma ScriptWithdraws(first: Id, messages: seq<Message>, rounds: seq<Round>)
    ensures Cancels(Script(first, messages, rounds)) == Withdrawn(first, rounds, |Exchanges(rounds)|)
  {
    var ex := Exchanges(rounds);
    var turns, last := TurnsCalls(messages, rounds, ex), LastCalls(first, rounds, |ex|);
    ExchangesAre(rounds);
    CallsAppend(turns, last);
    if ex != [] {
      var n := |ex| - 1;
      NoneWithdrawn(messages, rounds, ex[..n]);
      TurnMeans(rounds[n], History(messages, ex[..n]), ex[n]);
      CallsAppend(TurnsCalls(messages, rounds, ex[..n]), TurnCalls(rounds[n], History(messages, ex[..n]), ex[n]));
    }
    if last != [] {
      OneCall(Cancel(Current(first, rounds, |ex|)));
    }
  }

  /** The calls of the whole loop by kind: the follow-ups of its exchanges, and one resumption for each of them. */
  lemma ScriptMeans(first: Id, messages: seq<Message>, rounds: seq<Round>)
    ensures Creates(Script(first, messages, rounds)) == Posts(messages, Exchanges(rounds))
    ensures Resumes(Script(first, messages, rounds)) == Resumptions(Exchanges(rounds))
  {
    var exchanges := Exchanges(rounds);
    var turns, last := TurnsCalls(messages, rounds, exchanges), LastCalls(first, rounds, |exchanges|);
    ExchangesAre(rounds);
    TurnsMean(messages, rounds, exchanges);
    CallsAppend(turns, last);
    if last != [] {
      OneCall(Cancel(Current(first, rounds, |exchanges|)));
    }
  }

  /** User and assistant take turns, the user first. */
  ghost predicate Alternates(messages: seq<Message>) {
    forall k :: 0 <= k < |messages| ==> messages[k].role == if k % 2 == 0 then "user" else "assistant"
  }

  lemma AlternationGoesOn(messages: seq<Message>, e: Exchange)
    requires |messages| % 2 == 1 && Alternates(messages)
    ensures Alternates(messages + e.Messages())
  {
  }

  lemma {:induction false} HistoryAlternates(opening: Message, exchanges: seq<Exchange>)
    requires opening.role == "user"
    ensures |History([opening], exchanges)| == 2 * |exchanges| + 1 && Alternates(History([opening], exchanges))
    decreases |exchanges|
  {
    if exchanges != [] {
      var n := |exchanges| - 1;
      HistoryAlternates(opening, exchanges[..n]);
      AlternationGoesOn(History([opening], exchanges[..n]), exchanges[n]);
    }
  }

  lemma {:induction false} HistoryExtends(first: seq<Message>, exchanges: seq<Exchange>, k: nat)
    requires k <= |exchanges|
    ensures History(first, exchanges[..k]) <= History(first, exchanges)
    decreases |exchanges|
  {
    if k == |exchanges| {
      assert exchanges[..k] == exchanges;
    } else {
      var n := |exchanges| - 1;
      HistoryExtends(first, exchanges[..n], k);
      assert exchanges[..n][..k] == exchanges[..k];
    }
  }

  /** Where all exchanges up to `j` have a question, the follow-up of exchange `j` is call `j`. */
  lemma {:induction false} PostAt(first: seq<Message>, exchanges: seq<Exchange>, j: nat)
    requires j < |exchanges| && forall i :: 0 <= i <= j ==> exchanges[i].question != ""
    ensures j < |Posts(first, exchanges)|
    ensures Posts(first, exchanges)[j] == Create(History(first, exchanges[..j + 1]), exchanges[j].responder)
    decreases |exchanges|
  {
    var n := |exchanges| - 1;
    if j < n {
      PostAt(first, exchanges[..n], j);
      assert exchanges[..n][..j + 1] == exchanges[..j + 1];
    } else {
      AllAsked(first, exchanges[..n]);
      assert exchanges[..j + 1] == exchanges;
    }
  }

  lemma {:induction false} AllAsked(first: seq<Message>, exchanges: seq<Exchange>)
    requires forall i :: 0 <= i < |exchanges| ==> exchanges[i].question != ""
    ensures |Posts(first, exchanges)| == |exchanges|
    decreases |exchanges|
  {
    if exchanges != [] {
      AllAsked(first, exchanges[..|exchanges| - 1]);
    }
  }

  /** Each follow-up asks with an odd, strictly alternating transcript that ends with the exchange it belongs to and
      extends the transcripts of all earlier ones, and is meant for the responder of that exchange. */
  ghost predicate WellPosted(creates: seq<Call>, exchanges: seq<Exchange>) {
    && |creates| <= |exchanges|
    && (forall j :: 0 <= j < |creates| ==>
          && creates[j].Create? && creates[j].preferred == exchanges[j].responder
          && |creates[j].messages| == 2 * j + 3 && Alternates(creates[j].messages)
          && creates[j].messages[2 * j + 1..] == exchanges[j].Messages())
    && (forall i, j :: 0 <= i <= j < |creates| ==> creates[i].messages <= creates[j].messages)
  }

  lemma {:induction false} PostsFew(first: seq<Message>, exchanges: seq<Exchange>)
    ensures |Posts(first, exchanges)| <= |exchanges|
    decreases |exchanges|
  {
    if exchanges != [] {
      PostsFew(first, exchanges[..|exchanges| - 1]);
    }
  }

  lemma PostIsWell(opening: Message, exchanges: seq<Exchange>, j: nat)
    requires opening.role == "user" && j < |Posts([opening], exchanges)|
    requires forall i :: 0 <= i < |exchanges| - 1 ==> exchanges[i].question != ""
    ensures j < |exchanges| && exchanges[j].question != ""
    ensures Posts([opening], exchanges)[j] == Create(History([opening], exchanges[..j + 1]), exchanges[j].responder)
    ensures var messages := History([opening], exchanges[..j + 1]);
            |messages| == 2 * j + 3 && Alternates(messages) && messages[2 * j + 1..] == exchanges[j].Messages()
  {
    PostsFew([opening], exchanges);
    var n := |exchanges| - 1;
    if j == n {
      AllAsked([opening], exchanges[..n]);
    }
    PostAt([opening], exchanges, j);
    HistoryAlternates(opening, exchanges[..j + 1]);
    HistoryAlternates(opening, exchanges[..j]);
    assert exchanges[..j + 1][..j] == exchanges[..j];
  }

  lemma PostsExtend(opening: Message, exchanges: seq<Exchange>, i: nat, j: nat)
    requires opening.role == "user" && i <= j < |Posts([opening], exchanges)|
    requires forall k :: 0 <= k < |exchanges| - 1 ==> exchanges[k].question != ""
    ensures var creates := Posts([opening], exchanges);
            creates[i].Create? && creates[j].Create? && creates[i].messages <= creates[j].messages
  {
    PostIsWell(opening, exchanges, i);
    PostIsWell(opening, exchanges, j);
    HistoryExtends([opening], exchanges[..j + 1], i + 1);
    assert exchanges[..j + 1][..i + 1] == exchanges[..i + 1];
  }

  lemma PostsAreWell(opening: Message, exchanges: seq<Exchange>)
    requires opening.role == "user" && forall i :: 0 <= i < |exchanges| - 1 ==> exchanges[i].question != ""
    ensures WellPosted(Posts([opening], exchanges), exchanges)
  {
    var creates := Posts([opening], exchanges);
    PostsFew([opening], exchanges);
    forall j | 0 <= j < |creates|
      ensures creates[j].Create? && creates[j].preferred == exchanges[j].responder
      ensures |creates[j].messages| == 2 * j + 3 && Alternates(creates[j].messages)
      ensures creates[j].messages[2 * j + 1..] == exchanges[j].Messages()
    {
      PostIsWell(opening, exchanges, j);
    }
    forall i, j | 0 <= i <= j < |creates|
      ensures creates[i].messages <= creates[j].messages
    {
      PostsExtend(opening, exchanges, i, j);
    }
  }

  /** One answered turn: whatever comes of it, its responder is resumed once; a follow-up is posted exactly if there is a
      question, with the transcript extended by the exchange and for that responder, before the resumption; and it is
      withdrawn after it exactly if its responder is gone. */
  method AfterAnswer(history: seq<Message>, r: Round, responder: Id, answer: string)
    returns (calls: seq<Call>, transcript: seq<Message>, next: Option<Id>)
    ensures Resumes(calls) == [Resume(responder)]
    ensures Creates(calls) == if r.question == "" then []
                              else [Create(history + [Message("assistant", answer), Message("user", r.question)], responder)]
    ensures Cancels(calls) == if r.question != "" && r.created.Some? && !r.resumed then [Cancel(r.created.value)] else []
    ensures calls == Creates(calls) + Resumes(calls) + Cancels(calls)
    ensures var e := Exchange(responder, answer, r.question);
            && calls == TurnCalls(r, history, e)
            && (next.Some? <==> r.question != "" && r.created.Some? && r.resumed) && (next.Some? ==> next == r.created && transcript == history + e.Messages())
  {
    TurnMeans(r, history, Exchange(responder, answer, r.question));
    transcript := history + [Message("assistant", answer)];
    if r.question == "" {
      return [Resume(responder)], transcript, None;
    }
    transcript := transcript + [Message("user", r.question)];
    assert transcript == history + Exchange(responder, answer, r.question).Messages();
    calls := [Create(transcript, responder)];
    if r.created.None? {
      calls := calls + [Resume(responder)];
      assert calls == [Create(transcript, responder), Resume(responder)] + [];
      return calls, transcript, None;
    }
    calls := calls + [Resume(responder)];
    assert calls == [Create(transcript, responder), Resume(responder)];
    if !r.resumed {
      calls := calls + [Cancel(r.created.value)];
      return calls, transcript, None;
    }
    assert calls == [Create(transcript, responder), Resume(responder)] + [];
    return calls, transcript, r.created;
  }

  /** All calls of a conversation. */
  function Script(first: Id, messages: seq<Message>, rounds: seq<Round>): seq<Call> {
    TurnsCalls(messages, rounds, Exchanges(rounds)) + LastCalls(first, rounds, |Exchanges(rounds)|)
  }

  lemma ScriptGivesUp(first: Id, messages: seq<Message>, rounds: seq<Round>, done: seq<Exchange>, n: nat)
    requires |done| == n < |rounds| && Exchanges(rounds) == done && (n > 0 ==> GoesOn(rounds[n - 1])) && Wait(rounds[n].polls).GaveUp?
    ensures Script(first, messages, rounds) == TurnsCalls(messages, rounds, done)
              + (if Wait(rounds[n].polls).cancel then [Cancel(Current(first, rounds, n))] else [])
  {
  }

  lemma ScriptStops(first: Id, messages: seq<Message>, rounds: seq<Round>, done: seq<Exchange>, e: Exchange)
    requires |done| < |rounds| && Exchanges(rounds) == done + [e] && !GoesOn(rounds[|done|])
    ensures Script(first, messages, rounds) == TurnsCalls(messages, rounds, done) + TurnCalls(rounds[|done|], History(messages, done), e)
  {
    AddTurn(messages, rounds, done, e);
    assert LastCalls(first, rounds, |done| + 1) == [];
  }

  lemma ScriptEnds(first: Id, messages: seq<Message>, rounds: seq<Round>, done: seq<Exchange>)
    requires |done| == |rounds| && Exchanges(rounds) == done + Exchanges(rounds[|rounds|..])
    ensures Script(first, messages, rounds) == TurnsCalls(messages, rounds, done)
  {
    assert rounds[|rounds|..] == [];
    assert Exchanges(rounds) == done;
  }

  lemma LoopMeans(first: Id, messages: seq<Message>, rounds: seq<Round>)
    ensures Resumes(Script(first, messages, rounds)) == Resumptions(Exchanges(rounds))
    ensures Cancels(Script(first, messages, rounds)) == Withdrawn(first, rounds, |Exchanges(rounds)|)
    ensures |messages| == 1 && messages[0].role == "user" ==> WellPosted(Creates(Script(first, messages, rounds)), Exchanges(rounds))
  {
    ScriptMeans(first, messages, rounds);
    ScriptWithdraws(first, messages, rounds);
    ExchangesAre(rounds);
    if |messages| == 1 && messages[0].role == "user" {
      assert messages == [messages[0]];
      PostsAreWell(messages[0], Exchanges(rounds));
    }
  }

  /** The conversation loop: whatever the world answers, every follow-up is posted with the transcript so far and
      for the responder that gave the last answer, and every responder that answered is resumed once. */
  method ContinueQuestionConversation(first: Id, messages: seq<Message>, rounds: seq<Round>) returns (calls: seq<Call>)
    ensures calls == Script(first, messages, rounds)
    ensures Resumes(calls) == Resumptions(Exchanges(rounds))
    ensures Cancels(calls) == Withdrawn(first, rounds, |Exchanges(rounds)|)
    ensures |messages| == 1 && messages[0].role == "user" ==> WellPosted(Creates(calls), Exchanges(rounds))
  {
    LoopMeans(first, messages, rounds);
    calls := [];
    var history, current := messages, first;
    ghost var done: seq<Exchange> := [];
    assert rounds[0..] == rounds;
    for n := 0 to |rounds|
      invariant |done| == n && current == Current(first, rounds, n) && (n > 0 ==> GoesOn(rounds[n - 1]))
      invariant Exchanges(rounds) == done + Exchanges(rounds[n..])
      invariant history == History(messages, done) && calls == TurnsCalls(messages, rounds, done)
    {
      TurnAt(rounds, done, n);
      var w := WaitForPersonaAnswer(rounds[n].polls);
      if w.GaveUp? {
        ScriptGivesUp(first, messages, rounds, done, n);
        if w.cancel {
          calls := calls + [Cancel(current)];
        }
        return;
      }
      ghost var e := Exchange(w.responder, w.answer, rounds[n].question);
      var more, transcript, next := AfterAnswer(history, rounds[n], w.responder, w.answer);
      calls := calls + more;
      if next.None? {
        assert Exchanges(rounds) == done + [e];
        ScriptStops(first, messages, rounds, done, e);
        return;
      }
      AddTurn(messages, rounds, done, e);
      history, current := transcript, next.value;
      done := done + [e];
    }
    ScriptEnds(first, messages, rounds, done);
  }
}
