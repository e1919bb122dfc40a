/** The fallback responder: upstream deltas cut into chunks and submitted one by one, while everything else goes on.
    What it commits is always a run of whole chunks from the start of the upstream text. */
module Fallback {
  import opened Sequences
  import opened Domain
  import opened ServiceSpec
  import opened RequestRules
  import opened ServiceInvariant
  import opened ServiceOperations
  import opened FragmentOrigin

  const DEFAULT_CHUNK_RUNES := 5

  // ---------------------------------------------------------------- chunks

  function ChunkSize(maxRunes: int): (n: nat)
    ensures n > 0
  {
    if maxRunes <= 0 then DEFAULT_CHUNK_RUNES else maxRunes
  }

  /** The text in pieces of the given size, the last one perhaps shorter. */
  function Chunks(text: string, size: nat): seq<string>
    requires size > 0
    decreases |text|
  {
    if text == "" then []
    else if |text| <= size then [text]
    else [text[..size]] + Chunks(text[size..], size)
  }

  lemma FirstChunk(text: string, size: nat, n: nat)
    requires size > 0 && text != "" && n == (if |text| < size then |text| else size)
    ensures Chunks(text, size) == [text[..n]] + Chunks(text[n..], size)
  {
    if |text| <= size {
      assert text[..n] == text && text[n..] == "";
    }
  }

  method SplitFallbackChunk(text: string, maxRunes: int) returns (chunks: seq<string>)
    ensures chunks == Chunks(text, ChunkSize(maxRunes))
    ensures Cut(chunks, if maxRunes <= 0 then 5 else maxRunes)
  {
    if text == "" {
      return [];
    }
    var max := maxRunes;
    if max <= 0 {
      max := DEFAULT_CHUNK_RUNES;
    }
    var runes := text;
    chunks := [];
    while |runes| > 0
      invariant Chunks(text, max) == chunks + Chunks(runes, max)
      decreases |runes|
    {
      var n := max;
      if |runes| < n {
        n := |runes|;
      }
      FirstChunk(runes, max, n);
      chunks := chunks + [runes[..n]];
      runes := runes[n..];
    }
    ChunksCut(text, max);
  }

  /** All pieces are full except the last one, which is not empty. */
  ghost predicate Cut(chunks: seq<string>, size: nat) {
    && (forall i :: 0 <= i < |chunks| ==> 1 <= |chunks[i]| <= size)
    && (forall i :: 0 <= i < |chunks| - 1 ==> |chunks[i]| == size)
  }

  lemma {:induction false} ChunksCut(text: string, size: nat)
    requires size > 0
    ensures Flatten(Chunks(text, size)) == text && Cut(Chunks(text, size), size)
    decreases |text|
  {
    if |text| > size {
      ChunksCut(text[size..], size);
      assert ([text[..size]] + Chunks(text[size..], size))[1..] == Chunks(text[size..], size);
    } else if text != "" {
      assert [text][1..] == [];
    }
  }

  /** There is no other way to cut a text like that. */
  lemma {:induction false} CutIsUnique(chunks: seq<string>, size: nat)
    requires size > 0 && Cut(chunks, size)
    ensures Chunks(Flatten(chunks), size) == chunks
    decreases |chunks|
  {
    if chunks != [] {
      var text, rest := Flatten(chunks), Flatten(chunks[1..]);
      CutIsUnique(chunks[1..], size);
      if |chunks| > 1 {
        assert Flatten(chunks[1..]) == chunks[1] + Flatten(chunks[1..][1..]);
        assert text[..size] == chunks[0] && text[size..] == rest;
      } else {
        assert text == chunks[0];
      }
    }
  }

  /** What the emitter submits for a list of deltas: each delta is cut on its own. */
  function AllChunks(deltas: seq<string>, size: nat): seq<string>
    requires size > 0
  {
    if deltas == [] then [] else AllChunks(deltas[..|deltas| - 1], size) + Chunks(deltas[|deltas| - 1], size)
  }

  lemma {:induction false} AllChunksCut(deltas: seq<string>, size: nat)
    requires size > 0
    ensures Flatten(AllChunks(deltas, size)) == Flatten(deltas)
    ensures forall c :: c in AllChunks(deltas, size) ==> 1 <= |c| <= size
    decreases |deltas|
  {
    if deltas != [] {
      var n := |deltas| - 1;
      AllChunksCut(deltas[..n], size);
      ChunksCut(deltas[n], size);
      FlattenAppend(AllChunks(deltas[..n], size), Chunks(deltas[n], size));
      assert deltas == deltas[..n] + [deltas[n]];
      FlattenAppend(deltas[..n], [deltas[n]]);
      assert [deltas[n]][1..] == [];
      assert Flatten([deltas[n]]) == deltas[n];
    }
  }

  // ---------------------------------------------------------------- an attempt among other operations

  /** How far an attempt has come: chunks stored, and whether a submission failed. */
  datatype Progress = Progress(sent: nat, stopped: bool)

  predicate IsOwn(op: Op, a: Id) {
    op.DoSubmit? && op.session == a
  }

  ghost predicate Succeeds(s: State, op: Op)
    requires op.DoSubmit?
  {
    SubmitFragment(s, op.session, op.clientSeq, op.text, op.fragment, op.now).1.Ok?
  }

  ghost function Advance(p: Progress, s: State, op: Op, a: Id): Progress {
    if !IsOwn(op, a) then p else if Succeeds(s, op) then p.(sent := p.sent + 1) else p.(stopped := true)
  }

  ghost function After(s: State, ops: seq<Op>, a: Id): Progress {
    if ops == [] then Progress(0, false)
    else var n := |ops| - 1; Advance(After(s, ops[..n], a), Run(s, ops[..n]), ops[n], a)
  }

  /** The session submits the next chunk with the next sequence number, and nothing after a failure. */
  predicate NextOwn(p: Progress, op: Op, a: Id, chunks: seq<string>) {
    IsOwn(op, a) ==> !p.stopped && p.sent < |chunks| && op.clientSeq == p.sent + 1 && op.text == chunks[p.sent]
  }

  /** A run in which session `a` submits as the fallback emitter does; the other operations are arbitrary. */
  ghost predicate Follows(s: State, ops: seq<Op>, a: Id, chunks: seq<string>) {
    ops == [] ||
    var n := |ops| - 1;
    Follows(s, ops[..n], a, chunks) && NextOwn(After(s, ops[..n], a), ops[n], a, chunks)
  }

  /** The answer consists of the first `k` chunks, submitted by `a` with sequence numbers from 1; or `a` has not
      contributed to it at all. */
  ghost predicate Committed(answer: seq<Fragment>, a: Id, chunks: seq<string>, k: nat) {
    && k <= |chunks|
    && (k > 0 ==> |answer| == k
                  && forall i :: 0 <= i < k ==> answer[i].session == a && answer[i].clientSeq == i + 1 && answer[i].text == chunks[i])
    && (k == 0 ==> forall f :: f in answer ==> f.session != a)
  }

  /** The fallback has submitted nothing to `q` so far; so it is when it takes the request. */
  ghost predicate HasNoPart(s: State, q: Id)
    requires q in s.requests
  {
    forall f :: f in s.requests[q].fragments ==> f.session != FallbackSession(q)
  }

  lemma HoldsOnlyIts(s: State, q: Id)
    requires Inv(s) && FallbackSession(q) in s.active
    ensures s.active[FallbackSession(q)] == q
  {
    var a := FallbackSession(q);
    assert Holds(s, a, s.active[a]);
    FallbackIsNoSession(s, q);
    assert FallbackSession(s.active[a])[9..] == s.active[a] && a[9..] == q;
  }

  /** The next sequence number is new, so an accepted submission is stored, not taken for a retry. */
  lemma NotARetry(r: Request, a: Id, chunks: seq<string>, k: nat)
    requires AnswerOk(r) && Committed(r.fragments, a, chunks, k)
    ensures SeqKey(a, k + 1) !in r.seen
  {
    if SeqKey(a, k + 1) in r.seen {
      var f := r.seen[SeqKey(a, k + 1)];
      assert f in r.fragments && f.clientSeq > 0;
      SeqKeyInjective(a, k + 1, f.session, f.clientSeq);
      assert false;
    }
  }

  lemma EmptyOrNot<T>(s: seq<T>)
    ensures s == [] || exists x :: x in s
  {
    if s != [] {
      assert s[0] in s;
    }
  }

  lemma NothingYet(r: Request, a: Id, chunks: seq<string>)
    requires AnswerOk(r) && Committed(r.fragments, a, chunks, 0) && r.responder.Responder? && r.responder.session == a
    ensures r.fragments == []
  {
    EmptyOrNot(r.fragments);
  }

  lemma CommittedGrows(answer: seq<Fragment>, a: Id, chunks: seq<string>, k: nat, f: Fragment)
    requires Committed(answer, a, chunks, k) && k < |chunks| && (k == 0 ==> answer == [])
    requires f.session == a && f.clientSeq == k + 1 && f.text == chunks[k]
    ensures Committed(answer + [f], a, chunks, k + 1)
  {
  }

  /** A submission that is no retry succeeds exactly if it is stored. */
  lemma SucceedsIfStored(s: State, op: Op)
    requires op.DoSubmit? && op.session in s.active && s.active[op.session] in s.requests && op.clientSeq > 0
    requires SeqKey(op.session, op.clientSeq) !in s.requests[s.active[op.session]].seen
    ensures Succeeds(s, op) <==> Accepts(s, op.session, op.clientSeq, op.text)
  {
  }

  /** The answer to `q` after a submission. */
  function AnswerAfter(s: State, op: Op, q: Id): seq<Fragment>
    requires op.DoSubmit? && q in s.requests
  {
    s.requests[q].fragments +
    (if Accepts(s, op.session, op.clientSeq, op.text) && s.active[op.session] == q
     then [Fragment(op.fragment, op.session, op.clientSeq, op.text, op.now)] else [])
  }

  lemma StepAnswers(s: State, op: Op, q: Id)
    requires op.DoSubmit? && q in s.requests
    ensures q in Step(s, op).requests && Step(s, op).requests[q].fragments == AnswerAfter(s, op, q)
  {
    SubmitAdds(s, op.session, op.clientSeq, op.text, op.fragment, op.now, q);
  }

  /** The next chunk of the holder of a request, stored or not. */
  lemma HolderAnswers(r: Request, a: Id, chunks: seq<string>, k: nat, f: Fragment, stored: bool)
    requires AnswerOk(r) && r.responder.Responder? && r.responder.session == a
    requires Committed(r.fragments, a, chunks, k) && k < |chunks|
    requires f.session == a && f.clientSeq == k + 1 && f.text == chunks[k]
    ensures Committed(r.fragments + (if stored then [f] else []), a, chunks, if stored then k + 1 else k)
  {
    if stored {
      if k == 0 {
        NothingYet(r, a, chunks);
      }
      CommittedGrows(r.fragments, a, chunks, k, f);
    } else {
      assert r.fragments + [] == r.fragments;
    }
  }

  /** The progress an own step makes, given what the service does with it. */
  lemma OwnProgress(s: State, op: Op, chunks: seq<string>, p: Progress)
    requires op.DoSubmit? && NextOwn(p, op, op.session, chunks)
    requires op.session in s.active && s.active[op.session] in s.requests
    requires SeqKey(op.session, p.sent + 1) !in s.requests[s.active[op.session]].seen
    ensures Advance(p, s, op, op.session).sent == if Accepts(s, op.session, op.clientSeq, op.text) then p.sent + 1 else p.sent
  {
    SucceedsIfStored(s, op);
  }

  lemma HolderStep(s: State, q: Id, op: Op, chunks: seq<string>, p: Progress)
    requires op.DoSubmit? && op.session in s.active && s.active[op.session] == q && q in s.requests
    requires AnswerOk(s.requests[q]) && s.requests[q].responder.Responder? && s.requests[q].responder.session == op.session
    requires NextOwn(p, op, op.session, chunks)
    requires Committed(s.requests[q].fragments, op.session, chunks, p.sent)
    ensures Committed(AnswerAfter(s, op, q), op.session, chunks, Advance(p, s, op, op.session).sent)
  {
    NotARetry(s.requests[q], op.session, chunks, p.sent);
    OwnProgress(s, op, chunks, p);
    HolderAnswers(s.requests[q], op.session, chunks, p.sent,
                  Fragment(op.fragment, op.session, op.clientSeq, op.text, op.now), Accepts(s, op.session, op.clientSeq, op.text));
  }

  lemma OwnStep(s: State, q: Id, op: Op, chunks: seq<string>, p: Progress)
    requires Inv(s) && q in s.requests && IsOwn(op, FallbackSession(q))
    requires NextOwn(p, op, FallbackSession(q), chunks)
    requires Committed(s.requests[q].fragments, FallbackSession(q), chunks, p.sent)
    ensures q in Step(s, op).requests
    ensures Committed(Step(s, op).requests[q].fragments, FallbackSession(q), chunks, Advance(p, s, op, FallbackSession(q)).sent)
  {
    if FallbackSession(q) in s.active {
      HoldsOnlyIts(s, q);
      HeldRequest(s, FallbackSession(q));
      HolderStep(s, q, op, chunks, p);
      StepAnswers(s, op, q);
    } else {
      NotActive(s, op);
    }
  }

  lemma NotActive(s: State, op: Op)
    requires op.DoSubmit? && op.session !in s.active
    ensures Step(s, op) == s && !Succeeds(s, op)
  {
  }

  /** A fragment of another session is added only to an answer in which this one has no part. */
  lemma StrangerAnswers(r: Request, a: Id, chunks: seq<string>, k: nat, f: Fragment, stored: bool)
    requires Committed(r.fragments, a, chunks, k) && f.session != a
    requires stored ==> AnswerOk(r) && r.responder.Responder? && r.responder.session == f.session
    ensures Committed(r.fragments + (if stored then [f] else []), a, chunks, k)
  {
    if !stored {
      assert r.fragments + [] == r.fragments;
    } else if k > 0 {
      EmptyOrNot(r.fragments);
    }
  }

  lemma StrangerStep(s: State, q: Id, op: Op, a: Id, chunks: seq<string>, k: nat)
    requires Inv(s) && q in s.requests && op.DoSubmit? && op.session != a && Committed(s.requests[q].fragments, a, chunks, k)
    ensures Committed(AnswerAfter(s, op, q), a, chunks, k)
  {
    if op.session in s.active {
      HeldRequest(s, op.session);
    }
    StrangerAnswers(s.requests[q], a, chunks, k, Fragment(op.fragment, op.session, op.clientSeq, op.text, op.now),
                    Accepts(s, op.session, op.clientSeq, op.text) && s.active[op.session] == q);
  }

  lemma OtherStep(s: State, q: Id, op: Op, chunks: seq<string>, k: nat)
    requires Inv(s) && q in s.requests && Enabled(s, op) && !IsOwn(op, FallbackSession(q))
    requires Committed(s.requests[q].fragments, FallbackSession(q), chunks, k)
    ensures q in Step(s, op).requests
    ensures Committed(Step(s, op).requests[q].fragments, FallbackSession(q), chunks, k)
  {
    if op.DoSubmit? {
      StrangerStep(s, q, op, FallbackSession(q), chunks, k);
      StepAnswers(s, op, q);
    } else {
      OthersKeepAnswers(s, op);
    }
  }

  /** However other operations interleave, the committed answer is the first chunks, in order, or none of them. */
  lemma {:induction false} CommitsWholeChunks(s: State, q: Id, ops: seq<Op>, chunks: seq<string>)
    requires Inv(s) && q in s.requests && Committed(s.requests[q].fragments, FallbackSession(q), chunks, 0)
    requires ValidRun(s, ops) && Follows(s, ops, FallbackSession(q), chunks)
    ensures q in Run(s, ops).requests
    ensures Committed(Run(s, ops).requests[q].fragments, FallbackSession(q), chunks, After(s, ops, FallbackSession(q)).sent)
    decreases |ops|
  {
    if ops != [] {
      var n, a := |ops| - 1, FallbackSession(q);
      var t, p := Run(s, ops[..n]), After(s, ops[..n], a);
      CommitsWholeChunks(s, q, ops[..n], chunks);
      RunSound(s, ops[..n]);
      if IsOwn(ops[n], a) {
        OwnStep(t, q, ops[n], chunks, p);
      } else {
        OtherStep(t, q, ops[n], chunks, p.sent);
      }
    }
  }

  lemma {:induction false} CommittedText(answer: seq<Fragment>, a: Id, chunks: seq<string>, k: nat)
    requires k > 0 && Committed(answer, a, chunks, k)
    ensures AnswerText(answer) == Flatten(chunks[..k])
    decreases k
  {
    var n := k - 1;
    if n == 0 {
      assert answer[..0] == [] && chunks[..1] == [chunks[0]];
      assert [chunks[0]][1..] == [];
      assert AnswerText([]) == "";
    } else {
      CommittedText(answer[..n], a, chunks, n);
      assert chunks[..k] == chunks[..n] + [chunks[n]];
      FlattenAppend(chunks[..n], [chunks[n]]);
      assert [chunks[n]][1..] == [];
      assert Flatten([chunks[n]]) == chunks[n];
    }
  }

  lemma PrefixText(chunks: seq<string>, k: nat)
    requires k <= |chunks|
    ensures Flatten(chunks[..k]) <= Flatten(chunks)
    ensures k == |chunks| ==> chunks[..k] == chunks
  {
    assert chunks == chunks[..k] + chunks[k..];
    FlattenAppend(chunks[..k], chunks[k..]);
  }

  lemma ChunksAnswer(answer: seq<Fragment>, a: Id, deltas: seq<string>, size: nat, k: nat)
    requires size > 0 && k > 0 && Committed(answer, a, AllChunks(deltas, size), k)
    ensures AnswerText(answer) <= Flatten(deltas)
    ensures k == |AllChunks(deltas, size)| ==> AnswerText(answer) == Flatten(deltas)
    ensures forall f :: f in answer ==> f.session == a && 1 <= |f.text| <= size
  {
    var chunks := AllChunks(deltas, size);
    CommittedText(answer, a, chunks, k);
    AllChunksCut(deltas, size);
    PrefixText(chunks, k);
    assert forall i :: 0 <= i < k ==> chunks[i] in chunks;
  }

  /** The text the requester sees from a fallback attempt: a prefix of what upstream sent, all of it once every
      chunk was stored. */
  lemma FallbackAnswer(s: State, q: Id, ops: seq<Op>, deltas: seq<string>, size: nat)
    requires Inv(s) && q in s.requests && HasNoPart(s, q) && size > 0
    requires ValidRun(s, ops) && Follows(s, ops, FallbackSession(q), AllChunks(deltas, size))
    requires After(s, ops, FallbackSession(q)).sent > 0
    ensures q in Run(s, ops).requests
    ensures var answer := Run(s, ops).requests[q].fragments;
            && AnswerText(answer) <= Flatten(deltas)
            && (After(s, ops, FallbackSession(q)).sent == |AllChunks(deltas, size)| ==> AnswerText(answer) == Flatten(deltas))
            && forall f :: f in answer ==> f.session == FallbackSession(q) && 1 <= |f.text| <= size
  {
    CommitsWholeChunks(s, q, ops, AllChunks(deltas, size));
    ChunksAnswer(Run(s, ops).requests[q].fragments, FallbackSession(q), deltas, size, After(s, ops, FallbackSession(q)).sent);
  }

  // ---------------------------------------------------------------- the code of an attempt

  /** One call of `SubmitFragment` by the attempt. */
  datatype Submission = Submission(clientSeq: int, text: string)

  datatype Closing = Finishes | Skips

  /** The submissions that are made in the end: sequence numbers from 1, the chunks in order. */
  ghost predicate InOrder(calls: seq<Submission>, chunks: seq<string>) {
    |calls| <= |chunks| && forall i :: 0 <= i < |calls| ==> calls[i] == Submission(i + 1, chunks[i])
  }

  lemma InOrderNext(calls: seq<Submission>, chunks: seq<string>, text: string)
    requires InOrder(calls, chunks) && |calls| < |chunks| && text == chunks[|calls|]
    ensures InOrder(calls + [Submission(|calls| + 1, text)], chunks)
  {
  }

  /** `pieces` are the chunks from position `at`. */
  ghost predicate NextAre(pieces: seq<string>, chunks: seq<string>, at: nat) {
    at + |pieces| <= |chunks| && forall i :: 0 <= i < |pieces| ==> pieces[i] == chunks[at + i]
  }

  /** The emitter and the submit closure of one attempt.  What the service will answer to each submission, and
      whether the deadline has passed before it, are arbitrary functions of its number. */
  class Attempt {
    const maxRunes: int
    const outcome: nat -> bool
    const expired: nat -> bool

    var seqNo: int
    var submitted: bool
    var emitted: bool
    var calls: seq<Submission>

    ghost predicate Valid()
      reads this
    {
      seqNo == |calls| + 1 && (submitted <==> calls != []) && forall i :: 0 <= i < |calls| ==> outcome(i)
    }

    /** The attempt after its first failed submission, which is the last one. */
    ghost predicate Failed()
      reads this
    {
      var m := |calls| - 1;
      m >= 0 && !outcome(m) && (submitted <==> m > 0) && forall i :: 0 <= i < m ==> outcome(i)
    }

    /** The deadline had not passed before any submission but the first, for which nobody waits. */
    ghost predicate InTime()
      reads this
    {
      forall i :: 0 < i < |calls| ==> !expired(i)
    }

    constructor (maxRunes: int, outcome: nat -> bool, expired: nat -> bool)
      ensures Valid() && calls == [] && !emitted
      ensures this.maxRunes == maxRunes && this.outcome == outcome && this.expired == expired
    {
      this.maxRunes, this.outcome, this.expired := maxRunes, outcome, expired;
      seqNo, submitted, emitted, calls := 1, false, false, [];
    }

    method Submit(text: string) returns (ok: bool)
      requires Valid()
      modifies this
      ensures calls == old(calls) + (if text == "" then [] else [Submission(|old(calls)| + 1, text)])
      ensures ok <==> text == "" || outcome(|old(calls)|)
      ensures if ok then Valid() else Failed()
      ensures emitted == old(emitted)
    {
      if text == "" {
        return true;
      }
      var answer := outcome(|calls|);
      calls := calls + [Submission(seqNo, text)];
      if !answer {
        return false;
      }
      seqNo := seqNo + 1;
      submitted := true;
      return true;
    }

    method Emit(text: string, ghost chunks: seq<string>) returns (ok: bool)
      requires Valid() && InOrder(calls, chunks) && NextAre(Chunks(text, ChunkSize(maxRunes)), chunks, |calls|)
      requires InTime() && (emitted <==> calls != [])
      modifies this
      ensures InOrder(calls, chunks) && InTime() && (ok ==> (emitted <==> calls != []))
      ensures ok ==> Valid() && |calls| == |old(calls)| + |Chunks(text, ChunkSize(maxRunes))|
      ensures !ok ==> Failed() || (Valid() && expired(|calls|))
    {
      var pieces := SplitFallbackChunk(text, maxRunes);
      for i := 0 to |pieces|
        invariant Valid() && InOrder(calls, chunks) && |calls| == |old(calls)| + i
        invariant InTime() && (emitted <==> calls != [])
      {
        if emitted && expired(|calls|) {
          return false;
        }
        InOrderNext(calls, chunks, pieces[i]);
        ghost var n := |calls|;
        var stored := Submit(pieces[i]);
        assert |calls| == n + 1;
        if !stored {
          return false;
        }
        emitted := true;
      }
      return true;
    }
  }

  lemma {:induction false} ChunksUpTo(deltas: seq<string>, n: nat, size: nat)
    requires size > 0 && n <= |deltas|
    ensures AllChunks(deltas[..n], size) <= AllChunks(deltas, size)
    decreases |deltas| - n
  {
    if n == |deltas| {
      assert deltas[..n] == deltas;
    } else {
      assert deltas[..n + 1][..n] == deltas[..n];
      ChunksUpTo(deltas, n + 1, size);
    }
  }

  /** The chunks of the next delta are the next chunks. */
  lemma NextDelta(deltas: seq<string>, n: nat, size: nat)
    requires size > 0 && n < |deltas|
    ensures AllChunks(deltas[..n + 1], size) == AllChunks(deltas[..n], size) + Chunks(deltas[n], size)
    ensures NextAre(Chunks(deltas[n], size), AllChunks(deltas, size), |AllChunks(deltas[..n], size)|)
  {
    assert deltas[..n + 1][..n] == deltas[..n];
    ChunksUpTo(deltas, n + 1, size);
    ConcatNext(AllChunks(deltas[..n], size), Chunks(deltas[n], size), AllChunks(deltas, size));
  }

  lemma ConcatNext(sofar: seq<string>, pieces: seq<string>, chunks: seq<string>)
    requires sofar + pieces <= chunks
    ensures NextAre(pieces, chunks, |sofar|)
  {
    assert forall i :: 0 <= i < |pieces| ==> pieces[i] == (sofar + pieces)[|sofar| + i];
  }

  /** One attempt: the chunks are submitted in order until one fails or the deadline passes; then the request is
      finished if anything was stored, and given back otherwise. */
  method RunFallbackResponder(deltas: seq<string>, maxRunes: int, outcome: nat -> bool, expired: nat -> bool)
    returns (calls: seq<Submission>, closing: Closing)
    ensures InOrder(calls, AllChunks(deltas, ChunkSize(maxRunes)))
    ensures forall i :: 0 <= i < |calls| - 1 ==> outcome(i)
    ensures forall i :: 0 < i < |calls| ==> !expired(i)
    ensures closing == Finishes <==> calls != [] && outcome(0)
    ensures |calls| == |AllChunks(deltas, ChunkSize(maxRunes))| || (calls != [] && !outcome(|calls| - 1)) || expired(|calls|)
  {
    var attempt := new Attempt(maxRunes, outcome, expired);
    ghost var size, chunks := ChunkSize(maxRunes), AllChunks(deltas, ChunkSize(maxRunes));
    var n, going := 0, true;
    while going && n < |deltas|
      invariant n <= |deltas| && attempt.maxRunes == maxRunes && attempt.outcome == outcome && attempt.expired == expired
      invariant InOrder(attempt.calls, chunks) && attempt.InTime()
      invariant going ==> attempt.Valid() && (attempt.emitted <==> attempt.calls != []) && |attempt.calls| == |AllChunks(deltas[..n], size)|
      invariant !going ==> attempt.Failed() || (attempt.Valid() && expired(|attempt.calls|))
    {
      NextDelta(deltas, n, size);
      going := attempt.Emit(deltas[n], chunks);
      n := n + 1;
    }
    assert deltas[..|deltas|] == deltas;
    return attempt.calls, if attempt.submitted then Finishes else Skips;
  }

  // ---------------------------------------------------------------- code and run together

  /** The submissions of `a` in a run, and whether each succeeded. */
  function Own(ops: seq<Op>, a: Id): seq<Submission> {
    if ops == [] then []
    else
      var n := |ops| - 1;
      Own(ops[..n], a) + (if IsOwn(ops[n], a) then [Submission(ops[n].clientSeq, ops[n].text)] else [])
  }

  ghost function Outcomes(s: State, ops: seq<Op>, a: Id): (r: seq<bool>)
    ensures |r| == |Own(ops, a)|
  {
    if ops == [] then []
    else
      var n := |ops| - 1;
      Outcomes(s, ops[..n], a) + (if IsOwn(ops[n], a) then [Succeeds(Run(s, ops[..n]), ops[n])] else [])
  }

  /** Submissions like those of the code, in a run with anything in between, follow the protocol. */
  lemma {:induction false} CodeFollows(s: State, ops: seq<Op>, a: Id, chunks: seq<string>)
    requires InOrder(Own(ops, a), chunks)
    requires forall i :: 0 <= i < |Own(ops, a)| - 1 ==> Outcomes(s, ops, a)[i]
    ensures Follows(s, ops, a, chunks)
    ensures var m, good := |Own(ops, a)|, Outcomes(s, ops, a);
            After(s, ops, a) == if m > 0 && !good[m - 1] then Progress(m - 1, true) else Progress(m, false)
    decreases |ops|
  {
    if ops != [] {
      var n := |ops| - 1;
      var before, good := Own(ops[..n], a), Outcomes(s, ops[..n], a);
      assert forall i :: 0 <= i < |before| ==> before[i] == Own(ops, a)[i] && good[i] == Outcomes(s, ops, a)[i];
      CodeFollows(s, ops[..n], a, chunks);
      if IsOwn(ops[n], a) {
        assert Own(ops, a)[|before|] == Submission(ops[n].clientSeq, ops[n].text);
      }
    }
  }

  lemma CodeProgress(s: State, ops: seq<Op>, a: Id, chunks: seq<string>)
    requires InOrder(Own(ops, a), chunks)
    requires var good := Outcomes(s, ops, a); |good| > 0 && good[0] && forall i :: 0 <= i < |good| - 1 ==> good[i]
    ensures Follows(s, ops, a, chunks) && After(s, ops, a).sent > 0
    ensures var good := Outcomes(s, ops, a);
            |good| == |chunks| && good[|good| - 1] ==> After(s, ops, a).sent == |chunks|
  {
    CodeFollows(s, ops, a, chunks);
  }

  /** The answer a fallback attempt leaves, in any run that has its submissions among arbitrary other operations:
      once something was stored, it is upstream's text up to the end of a chunk, and all of it if nothing failed. */
  lemma AttemptAnswer(s: State, q: Id, ops: seq<Op>, deltas: seq<string>, size: nat)
    requires Inv(s) && q in s.requests && HasNoPart(s, q) && size > 0 && ValidRun(s, ops)
    requires InOrder(Own(ops, FallbackSession(q)), AllChunks(deltas, size))
    requires var good := Outcomes(s, ops, FallbackSession(q)); |good| > 0 && good[0] && forall i :: 0 <= i < |good| - 1 ==> good[i]
    ensures q in Run(s, ops).requests
    ensures var answer, good := Run(s, ops).requests[q].fragments, Outcomes(s, ops, FallbackSession(q));
            && AnswerText(answer) <= Flatten(deltas)
            && (|good| == |AllChunks(deltas, size)| && good[|good| - 1] ==> AnswerText(answer) == Flatten(deltas))
            && forall f :: f in answer ==> f.session == FallbackSession(q) && 1 <= |f.text| <= size
  {
    CodeProgress(s, ops, FallbackSession(q), AllChunks(deltas, size));
    FallbackAnswer(s, q, ops, deltas, size);
  }

  // ---------------------------------------------------------------- the retry loop

  /** One attempt in a run: the operations from its take-over to its end, and the chunks it is to submit. */
  datatype Try = Try(ops: seq<Op>, chunks: seq<string>)

  ghost function Sent(s: State, q: Id, t: Try): nat {
    After(s, t.ops, FallbackSession(q)).sent
  }

  /** Attempts one after the other.  Another one is made only after an attempt that closed by skipping, that is, one of
      which nothing was stored. */
  ghost predicate Tries(s: State, q: Id, tries: seq<Try>)
    decreases |tries|
  {
    tries == [] ||
    (&& ValidRun(s, tries[0].ops) && Follows(s, tries[0].ops, FallbackSession(q), tries[0].chunks)
     && (|tries| > 1 ==> Sent(s, q, tries[0]) == 0)
     && Tries(Run(s, tries[0].ops), q, tries[1..]))
  }

  ghost function AfterTries(s: State, tries: seq<Try>): State
    decreases |tries|
  {
    if tries == [] then s else AfterTries(Run(s, tries[0].ops), tries[1..])
  }

  /** How much the last attempt stored. */
  ghost function SentLast(s: State, q: Id, tries: seq<Try>): nat
    requires tries != []
    decreases |tries|
  {
    if |tries| == 1 then Sent(s, q, tries[0]) else SentLast(Run(s, tries[0].ops), q, tries[1..])
  }

  /** Over the whole retry loop, with anything in between: the answer is exactly what the last attempt stored, whole
      chunks of its own text from the start; all attempts before it left nothing. */
  lemma {:induction false} OneAttemptAnswers(s: State, q: Id, tries: seq<Try>)
    requires Inv(s) && q in s.requests && HasNoPart(s, q) && tries != [] && Tries(s, q, tries)
    ensures q in AfterTries(s, tries).requests
    ensures Committed(AfterTries(s, tries).requests[q].fragments, FallbackSession(q), tries[|tries| - 1].chunks, SentLast(s, q, tries))
    decreases |tries|
  {
    var t := FirstTry(s, q, tries);
    if |tries| > 1 {
      OneAttemptAnswers(t, q, tries[1..]);
    }
  }

  /** The state after the first attempt, and what it means for the rest. */
  lemma FirstTry(s: State, q: Id, tries: seq<Try>) returns (t: State)
    requires Inv(s) && q in s.requests && HasNoPart(s, q) && tries != [] && Tries(s, q, tries)
    ensures |tries| == 1 ==>
              && AfterTries(s, tries) == t && q in t.requests
              && Committed(t.requests[q].fragments, FallbackSession(q), tries[0].chunks, SentLast(s, q, tries))
    ensures |tries| > 1 ==>
              && Inv(t) && q in t.requests && HasNoPart(t, q) && Tries(t, q, tries[1..])
              && AfterTries(s, tries) == AfterTries(t, tries[1..]) && SentLast(s, q, tries) == SentLast(t, q, tries[1..])
              && tries[1..][|tries[1..]| - 1] == tries[|tries| - 1]
  {
    t := Run(s, tries[0].ops);
    TryEnds(s, q, tries[0]);
    TriesAre(s, q, tries, t);
  }

  /** The first attempt taken off. */
  lemma TriesAre(s: State, q: Id, tries: seq<Try>, t: State)
    requires tries != [] && Tries(s, q, tries) && t == Run(s, tries[0].ops)
    ensures if |tries| == 1 then AfterTries(s, tries) == t && SentLast(s, q, tries) == Sent(s, q, tries[0])
            else && Tries(t, q, tries[1..]) && AfterTries(s, tries) == AfterTries(t, tries[1..])
                 && SentLast(s, q, tries) == SentLast(t, q, tries[1..]) && Sent(s, q, tries[0]) == 0
                 && tries[1..][|tries[1..]| - 1] == tries[|tries| - 1]
  {
    if |tries| == 1 {
      assert tries[1..] == [];
    }
  }

  lemma TryEnds(s: State, q: Id, t: Try)
    requires Inv(s) && q in s.requests && HasNoPart(s, q)
    requires ValidRun(s, t.ops) && Follows(s, t.ops, FallbackSession(q), t.chunks)
    ensures Inv(Run(s, t.ops)) && q in Run(s, t.ops).requests
    ensures Committed(Run(s, t.ops).requests[q].fragments, FallbackSession(q), t.chunks, Sent(s, q, t))
    ensures Sent(s, q, t) == 0 ==> HasNoPart(Run(s, t.ops), q)
  {
    CommitsWholeChunks(s, q, t.ops, t.chunks);
    RunSound(s, t.ops);
  }
}
