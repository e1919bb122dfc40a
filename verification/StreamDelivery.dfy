/** Delivery of an answer stream from Postgres: whatever wake-ups are lost, the emitted events are the
    stored fragments in order, and the end marker comes once, last, and after the whole answer. */
module StreamDelivery {
  import opened Sequences
  import opened Domain
  import opened Protocol
  import opened ProtocolInvariant
  import opened ProtocolProofs

  /** Where the delivery goroutine of one subscriber is. */
  datatype Phase =
    | Querying                                        // about to select the fragments after `last`
    | Emitting(rest: seq<FragmentRow>)                // sending the rows it selected
    | Checking                                        // about to read the terminal state
    | QueryingAgain(finish: Reason)                   // saw the end: select once more
    | EmittingAgain(rest: seq<FragmentRow>, finish: Reason)
    | Ending(finish: Reason)                          // about to send the end marker
    | Waiting                                         // for a wake-up or the ticker
    | Stopped

  datatype Reader = Reader(phase: Phase, last: int, out: seq<Event>)

  datatype System = System(db: State, sub: Reader)

  const START := Reader(Querying, 0, [])

  /** `SELECT ordinal, text ... WHERE ordinal > after ORDER BY ordinal`. */
  function RowsAfter(fragments: seq<FragmentRow>, after: int): seq<FragmentRow> {
    Filter(fragments, (f: FragmentRow) => f.ordinal > after)
  }

  /** One step of the delivery goroutine against the row as it is now. */
  function Advance(sub: Reader, r: Row): Reader {
    match sub.phase
    case Querying => sub.(phase := Emitting(RowsAfter(r.fragments, sub.last)))
    case Emitting(rest) =>
      if rest == [] then sub.(phase := Checking)
      else Reader(Emitting(rest[1..]), rest[0].ordinal, sub.out + [Text(rest[0].text)])
    case Checking => sub.(phase := if IsTerminal(r.status) then QueryingAgain(r.finish) else Waiting)
    case QueryingAgain(finish) => sub.(phase := EmittingAgain(RowsAfter(r.fragments, sub.last), finish))
    case EmittingAgain(rest, finish) =>
      if rest == [] then sub.(phase := Ending(finish))
      else Reader(EmittingAgain(rest[1..], finish), rest[0].ordinal, sub.out + [Text(rest[0].text)])
    case Ending(finish) => Reader(Stopped, sub.last, sub.out + [Done(finish)])
    case Waiting => sub.(phase := Querying)
    case Stopped => sub
  }

  /** A step of the database, a step of the goroutine, or the consumer going away. */
  datatype Move = Database(e: Action) | Deliver | Leave

  ghost predicate CanMove(sys: System, q: Id, m: Move) {
    match m
    case Database(e) => Enabled(sys.db, e)
    case Deliver => q in sys.db.rows
    case Leave => true
  }

  ghost function After(sys: System, q: Id, m: Move): System
    requires CanMove(sys, q, m)
  {
    match m
    case Database(e) => sys.(db := Next(sys.db, e))
    case Deliver => sys.(sub := Advance(sys.sub, sys.db.rows[q]))
    case Leave => sys.(sub := sys.sub.(phase := Stopped))
  }

  // ---------------------------------------------------------------- the invariant

  /** The events of the stored fragments. */
  function Texts(fragments: seq<FragmentRow>): seq<Event> {
    seq(|fragments|, i requires 0 <= i < |fragments| => Text(fragments[i].text))
  }

  /** What has been emitted: the first `last` fragments, each once and in order, and the end marker only
      after the whole answer of an ended request. */
  ghost predicate Emitted(sub: Reader, r: Row) {
    && 0 <= sub.last <= |r.fragments|
    && (|| sub.out == Texts(r.fragments[..sub.last])
        || (&& sub.phase == Stopped && IsTerminal(r.status) && sub.last == |r.fragments|
            && sub.out == Texts(r.fragments) + [Done(r.finish)]))
  }

  ghost predicate PhaseOk(sub: Reader, r: Row)
    requires 0 <= sub.last <= |r.fragments|
  {
    match sub.phase
    case Emitting(rest) => rest <= r.fragments[sub.last..]
    case QueryingAgain(finish) => IsTerminal(r.status) && finish == r.finish
    case EmittingAgain(rest, finish) => IsTerminal(r.status) && finish == r.finish && rest == r.fragments[sub.last..]
    case Ending(finish) => IsTerminal(r.status) && finish == r.finish && sub.last == |r.fragments|
    case _ => true
  }

  ghost predicate DeliveryOk(sub: Reader, r: Row) {
    Emitted(sub, r) && PhaseOk(sub, r) && (sub.phase != Stopped ==> sub.out == Texts(r.fragments[..sub.last]))
  }

  /** With ordinals 1..n the query returns exactly the rest of the answer. */
  lemma {:induction false} QueryIsTail(fragments: seq<FragmentRow>, base: nat, after: nat)
    requires forall i :: 0 <= i < |fragments| ==> fragments[i].ordinal == base + i + 1
    requires base <= after <= base + |fragments|
    ensures RowsAfter(fragments, after) == fragments[after - base..]
    decreases |fragments|
  {
    if fragments != [] {
      var p := (f: FragmentRow) => f.ordinal > after;
      if after == base {
        FilterAll(fragments, p);
      } else {
        QueryIsTail(fragments[1..], base + 1, after);
        assert fragments[1..][after - base - 1..] == fragments[after - base..];
      }
    }
  }

  lemma EmitOne(r: Row, last: nat)
    requires last < |r.fragments|
    ensures Texts(r.fragments[..last]) + [Text(r.fragments[last].text)] == Texts(r.fragments[..last + 1])
  {
  }

  lemma AdvanceKeeps(sub: Reader, r: Row)
    requires RowOk(r) && DeliveryOk(sub, r)
    ensures DeliveryOk(Advance(sub, r), r)
  {
    if sub.phase.Querying? || sub.phase.QueryingAgain? {
      QueryKeeps(sub, r);
    } else if sub.phase.Emitting? {
      EmitKeeps(sub, r);
    } else if sub.phase.EmittingAgain? {
      EmitAgainKeeps(sub, r);
    } else if sub.phase.Ending? {
      EndKeeps(sub, r);
    }
  }

  lemma QueryKeeps(sub: Reader, r: Row)
    requires RowOk(r) && DeliveryOk(sub, r) && (sub.phase.Querying? || sub.phase.QueryingAgain?)
    ensures DeliveryOk(Advance(sub, r), r)
  {
    QueryIsTail(r.fragments, 0, sub.last);
  }

  lemma EmitKeeps(sub: Reader, r: Row)
    requires RowOk(r) && DeliveryOk(sub, r) && sub.phase.Emitting?
    ensures DeliveryOk(Advance(sub, r), r)
  {
    if sub.phase.rest != [] {
      EmitStep(sub, r, sub.phase.rest);
    }
  }

  lemma EmitAgainKeeps(sub: Reader, r: Row)
    requires RowOk(r) && DeliveryOk(sub, r) && sub.phase.EmittingAgain?
    ensures DeliveryOk(Advance(sub, r), r)
  {
    if sub.phase.rest != [] {
      EmitStep(sub, r, sub.phase.rest);
    }
  }

  lemma EndKeeps(sub: Reader, r: Row)
    requires DeliveryOk(sub, r) && sub.phase.Ending?
    ensures DeliveryOk(Advance(sub, r), r)
  {
    assert r.fragments[..sub.last] == r.fragments;
  }

  lemma EmitStep(sub: Reader, r: Row, rest: seq<FragmentRow>)
    requires RowOk(r) && Emitted(sub, r) && sub.out == Texts(r.fragments[..sub.last])
    requires rest != [] && rest <= r.fragments[sub.last..]
    ensures rest[0] == r.fragments[sub.last] && rest[0].ordinal == sub.last + 1
    ensures sub.out + [Text(rest[0].text)] == Texts(r.fragments[..sub.last + 1])
    ensures rest[1..] <= r.fragments[sub.last + 1..]
    ensures rest == r.fragments[sub.last..] ==> rest[1..] == r.fragments[sub.last + 1..]
  {
    EmitOne(r, sub.last);
    assert r.fragments[sub.last..][1..] == r.fragments[sub.last + 1..];
  }

  /** Anything the database does meanwhile keeps what was emitted a prefix of the answer. */
  lemma DatabaseKeeps(sub: Reader, r: Row, r': Row)
    requires DeliveryOk(sub, r) && RowEvolves(r, r')
    ensures DeliveryOk(sub, r')
  {
    assert r.fragments[..sub.last] == r'.fragments[..sub.last];
    if sub.phase.Emitting? {
      assert sub.phase.rest <= r'.fragments[sub.last..] by {
        assert r.fragments[sub.last..] <= r'.fragments[sub.last..];
      }
    }
  }

  ghost predicate SystemOk(sys: System, q: Id) {
    Inv(sys.db) && q in sys.db.rows && DeliveryOk(sys.sub, sys.db.rows[q])
  }

  lemma MoveKeeps(sys: System, q: Id, m: Move)
    requires SystemOk(sys, q) && CanMove(sys, q, m)
    ensures SystemOk(After(sys, q, m), q)
  {
    match m
    case Database(e) =>
      StepSound(sys.db, e);
      DatabaseKeeps(sys.sub, sys.db.rows[q], Next(sys.db, e).rows[q]);
    case Deliver => AdvanceKeeps(sys.sub, sys.db.rows[q]);
    case Leave =>
  }

  ghost predicate ValidMoves(sys: System, q: Id, moves: seq<Move>)
    decreases |moves|, 0
  {
    moves == [] || (ValidMoves(sys, q, moves[..|moves| - 1]) && CanMove(Moved(sys, q, moves[..|moves| - 1]), q, moves[|moves| - 1]))
  }

  ghost function Moved(sys: System, q: Id, moves: seq<Move>): System
    requires ValidMoves(sys, q, moves)
    decreases |moves|, 1
  {
    if moves == [] then sys else After(Moved(sys, q, moves[..|moves| - 1]), q, moves[|moves| - 1])
  }

  lemma {:induction false} MovesKeep(sys: System, q: Id, moves: seq<Move>)
    requires SystemOk(sys, q) && ValidMoves(sys, q, moves)
    ensures SystemOk(Moved(sys, q, moves), q)
    decreases |moves|
  {
    if moves != [] {
      MovesKeep(sys, q, moves[..|moves| - 1]);
      MoveKeeps(Moved(sys, q, moves[..|moves| - 1]), q, moves[|moves| - 1]);
    }
  }

  /** From subscription on, in every interleaving of commits, sweeps, cancellations and delivery steps, with
      any wake-ups missing: what was emitted is the stored answer from its first fragment on, without gap or
      repeat, and at most one end marker, the last event, after the whole answer and with the stored reason. */
  lemma StreamIsComplete(db: State, q: Id, moves: seq<Move>)
    requires Inv(db) && q in db.rows && ValidMoves(System(db, START), q, moves)
    ensures var sys := Moved(System(db, START), q, moves);
            q in sys.db.rows && Emitted(sys.sub, sys.db.rows[q])
  {
    assert Texts(db.rows[q].fragments[..0]) == [];
    MovesKeep(System(db, START), q, moves);
  }

  // ---------------------------------------------------------------- one wake-up is enough

  /** How much one phase still has to do before the goroutine waits or stops. */
  function Remaining(phase: Phase): nat {
    match phase
    case Querying => 5
    case Emitting(rest) => 4
    case Checking => 3
    case QueryingAgain(_) => 2
    case EmittingAgain(rest, _) => 1
    case Ending(_) => 0
    case Waiting => 6
    case Stopped => 0
  }

  function Pending(phase: Phase): nat {
    match phase
    case Emitting(rest) => |rest|
    case EmittingAgain(rest, _) => |rest|
    case _ => 0
  }

  /** Runs the goroutine of an ended request until it stops. */
  function RunToEnd(sub: Reader, r: Row): Reader
    requires IsTerminal(r.status)
    decreases if sub.phase == Stopped then 0 else 1, Remaining(sub.phase), Pending(sub.phase)
  {
    if sub.phase == Stopped then sub else RunToEnd(Advance(sub, r), r)
  }

  /** Once the request has ended, whatever the subscriber has or has not heard before, a single wake-up makes
      it emit the rest of the answer and the end marker. */
  lemma {:induction false} OneWakeUpSuffices(sub: Reader, r: Row)
    requires RowOk(r) && IsTerminal(r.status) && DeliveryOk(sub, r) && sub.phase != Stopped
    ensures RunToEnd(sub, r).out == Texts(r.fragments) + [Done(r.finish)]
    decreases Remaining(sub.phase), Pending(sub.phase)
  {
    AdvanceKeeps(sub, r);
    if sub.phase.Ending? {
      assert r.fragments[..sub.last] == r.fragments;
      assert RunToEnd(Advance(sub, r), r) == Advance(sub, r);
    } else {
      OneWakeUpSuffices(Advance(sub, r), r);
    }
  }

  /** One drain against the rows of one query: it sends them in order until the consumer, who takes
      `room` more events, goes away. */
  method DrainFragmentsAfter(fragments: seq<FragmentRow>, after: int, room: nat) returns (last: int, ok: bool, out: seq<Event>)
    ensures var rows := RowsAfter(fragments, after);
            var sent := if room < |rows| then room else |rows|;
            && out == Texts(rows[..sent])
            && last == (if sent == 0 then after else rows[sent - 1].ordinal)
            && (ok <==> |rows| <= room)
  {
    var rows := RowsAfter(fragments, after);
    last, out := after, [];
    for i := 0 to |rows|
      invariant i <= room && out == Texts(rows[..i]) && last == (if i == 0 then after else rows[i - 1].ordinal)
    {
      if i == room {
        return last, false, out;
      }
      out := out + [Text(rows[i].text)];
      last := rows[i].ordinal;
      assert Texts(rows[..i + 1]) == Texts(rows[..i]) + [Text(rows[i].text)];
    }
    assert rows[..|rows|] == rows;
    ok := true;
  }

  /** The goroutine's state after `n` deliveries of a batch of rows. */
  function Emit(sub: Reader, r: Row, n: nat): Reader
    decreases n
  {
    if n == 0 then sub else Emit(Advance(sub, r), r, n - 1)
  }

  /** The drain is the run of the emitting steps: a consumer with room for `n` of the selected rows has been sent just
      what the loop sends it, and the goroutine stands at the ordinal the loop returns. */
  lemma {:induction false} DrainIsEmitting(sub: Reader, r: Row, n: nat)
    requires sub.phase.Emitting? && n <= |sub.phase.rest|
    ensures var rows := sub.phase.rest;
            Emit(sub, r, n) == Reader(Emitting(rows[n..]), if n == 0 then sub.last else rows[n - 1].ordinal, sub.out + Texts(rows[..n]))
    decreases n
  {
    var rows := sub.phase.rest;
    if n == 0 {
      assert rows[0..] == rows && sub.out + Texts(rows[..0]) == sub.out;
    } else {
      var next := Advance(sub, r);
      DrainIsEmitting(next, r, n - 1);
      assert rows[1..][n - 1..] == rows[n..];
      assert [Text(rows[0].text)] + Texts(rows[1..][..n - 1]) == Texts(rows[..n]);
      assert n > 1 ==> rows[1..][n - 2] == rows[n - 1];
    }
  }
}
