/** The two matchers of the system and why they agree.

    The in-memory matcher walks the queue first; the Redis script walks the list of available
    responders first.  Both are described as functions of the waiting queue, the available list
    and a compatibility relation, and both are shown to compute the one stable matching. */
module Matching {
  import opened Sequences

  type Compat = (Id, Id) -> bool

  /** Outcome of a drain: the pairs handed out and what is left of both lists. */
  datatype Drained = Drained(pairs: seq<(Id, Id)>, queue: seq<Id>, available: seq<Id>)

  // ---------------------------------------------------------------- in-memory matcher

  function FirstResponder(q: Id, available: seq<Id>, ok: Compat): (j: nat)
    ensures j <= |available|
    ensures j < |available| ==> ok(q, available[j])
    ensures forall k :: 0 <= k < j ==> !ok(q, available[k])
  {
    IndexOf(available, a => ok(q, a))
  }

  function FirstRequest(queue: seq<Id>, a: Id, ok: Compat): (i: nat)
    ensures i <= |queue|
    ensures i < |queue| ==> ok(queue[i], a)
    ensures forall k :: 0 <= k < i ==> !ok(queue[k], a)
  {
    IndexOf(queue, q => ok(q, a))
  }

  /** The oldest request with any compatible responder, and the first such responder. */
  function MemoryNext(queue: seq<Id>, available: seq<Id>, ok: Compat): (r: Option<(nat, nat)>)
    ensures r.Some? ==> r.value.0 < |queue| && MutualTop(queue, available, ok, r.value.0, r.value.1)
    ensures r.None? ==> NoPair(queue, available, ok)
    decreases |queue|
  {
    if queue == [] then None
    else
      var j := FirstResponder(queue[0], available, ok);
      if j < |available| then Some((0, j))
      else match MemoryNext(queue[1..], available, ok)
        case None => None
        case Some((i, k)) => Some((i + 1, k))
  }

  /** The search result is determined by what it promises. */
  lemma {:induction false} MemoryNextIs(queue: seq<Id>, available: seq<Id>, ok: Compat, i: nat, j: nat)
    requires MutualTop(queue, available, ok, i, j)
    requires NoPair(queue[..i], available, ok)
    ensures MemoryNext(queue, available, ok) == Some((i, j))
    decreases |queue|
  {
    if i == 0 {
      assert FirstResponder(queue[0], available, ok) == j;
    } else {
      assert forall k :: 0 <= k < |available| ==> !ok(queue[..i][0], available[k]);
      assert queue[1..][..i - 1] == queue[..i][1..];
      MemoryNextIs(queue[1..], available, ok, i - 1, j);
    }
  }

  lemma {:induction false} MemoryNextNone(queue: seq<Id>, available: seq<Id>, ok: Compat)
    requires NoPair(queue, available, ok)
    ensures MemoryNext(queue, available, ok) == None
    decreases |queue|
  {
    if queue != [] {
      assert forall k :: 0 <= k < |available| ==> !ok(queue[0], available[k]);
      MemoryNextNone(queue[1..], available, ok);
    }
  }

  function MemoryDrain(queue: seq<Id>, available: seq<Id>, ok: Compat): Drained
    decreases |queue|
  {
    match MemoryNext(queue, available, ok)
    case None => Drained([], queue, available)
    case Some((i, j)) =>
      var rest := MemoryDrain(RemoveAt(queue, i), RemoveAt(available, j), ok);
      rest.(pairs := [(queue[i], available[j])] + rest.pairs)
  }

  // ---------------------------------------------------------------- Redis script

  /** One run of the assignment script: the chosen queue index and responder, if any, and the
      available list it leaves.  Responders whose presence has lapsed are dropped on the way,
      incompatible ones go back to the head in their old order. */
  function ScriptNext(queue: seq<Id>, available: seq<Id>, present: Id -> bool, ok: Compat): (r: (Option<(nat, Id)>, seq<Id>))
    ensures r.0.Some? ==> r.0.value.0 < |queue| && ok(queue[r.0.value.0], r.0.value.1)
    decreases |available|
  {
    if available == [] then (None, [])
    else if !present(available[0]) then ScriptNext(queue, available[1..], present, ok)
    else
      var i := FirstRequest(queue, available[0], ok);
      if i < |queue| then (Some((i, available[0])), available[1..])
      else
        var rest := ScriptNext(queue, available[1..], present, ok);
        (rest.0, [available[0]] + rest.1)
  }

  function ScriptDrain(queue: seq<Id>, available: seq<Id>, present: Id -> bool, ok: Compat): Drained
    decreases |queue|
  {
    var (choice, left) := ScriptNext(queue, available, present, ok);
    match choice
    case None => Drained([], queue, left)
    case Some((i, sid)) =>
      var rest := ScriptDrain(RemoveAt(queue, i), left, present, ok);
      rest.(pairs := [(queue[i], sid)] + rest.pairs)
  }

  // ---------------------------------------------------------------- stability

  ghost predicate NoPair(queue: seq<Id>, available: seq<Id>, ok: Compat) {
    forall i, j :: 0 <= i < |queue| && 0 <= j < |available| ==> !ok(queue[i], available[j])
  }

  /** `queue[i]` and `available[j]` are each other's first choice. */
  ghost predicate MutualTop(queue: seq<Id>, available: seq<Id>, ok: Compat, i: nat, j: nat) {
    && i < |queue| && j < |available|
    && ok(queue[i], available[j])
    && (forall k :: 0 <= k < j ==> !ok(queue[i], available[k]))
    && (forall k :: 0 <= k < i ==> !ok(queue[k], available[j]))
  }

  /** A matching: compatible pairs, nobody in two of them. */
  ghost predicate Matching(queue: seq<Id>, available: seq<Id>, ok: Compat, m: set<(Id, Id)>) {
    && (forall p :: p in m ==> p.0 in queue && p.1 in available && ok(p.0, p.1))
    && (forall p, p' :: p in m && p' in m && (p.0 == p'.0 || p.1 == p'.1) ==> p == p')
  }

  /** Some side of the compatible couple (`queue[i]`, `available[j]`) is already served at least as well. */
  ghost predicate Settled(queue: seq<Id>, available: seq<Id>, m: set<(Id, Id)>, i: nat, j: nat)
    requires i < |queue| && j < |available|
  {
    || (exists k :: 0 <= k <= j && (queue[i], available[k]) in m)
    || (exists k :: 0 <= k <= i && (queue[k], available[j]) in m)
  }

  /** No compatible couple would both rather have each other. */
  ghost predicate Stable(queue: seq<Id>, available: seq<Id>, ok: Compat, m: set<(Id, Id)>) {
    && Matching(queue, available, ok, m)
    && (forall i, j :: 0 <= i < |queue| && 0 <= j < |available| && ok(queue[i], available[j])
          ==> Settled(queue, available, m, i, j))
  }

  lemma TopPairIsMatched(queue: seq<Id>, available: seq<Id>, ok: Compat, m: set<(Id, Id)>, i: nat, j: nat)
    requires MutualTop(queue, available, ok, i, j)
    requires Stable(queue, available, ok, m)
    ensures (queue[i], available[j]) in m
  {
    assert Settled(queue, available, m, i, j);
  }

  /** Index in `s` of the element at index `k` of `RemoveAt(s, i)`. */
  function Unshift(i: nat, k: nat): nat {
    if k < i then k else k + 1
  }

  lemma PeelTop(queue: seq<Id>, available: seq<Id>, ok: Compat, m: set<(Id, Id)>, i: nat, j: nat)
    requires NoDup(queue) && NoDup(available)
    requires MutualTop(queue, available, ok, i, j)
    requires Stable(queue, available, ok, m)
    ensures Stable(RemoveAt(queue, i), RemoveAt(available, j), ok, m - {(queue[i], available[j])})
  {
    var top := (queue[i], available[j]);
    var q', a', m' := RemoveAt(queue, i), RemoveAt(available, j), m - {top};
    TopPairIsMatched(queue, available, ok, m, i, j);
    RemoveAtMembers(queue, i);
    RemoveAtMembers(available, j);
    forall x, y | 0 <= x < |q'| && 0 <= y < |a'| && ok(q'[x], a'[y])
      ensures Settled(q', a', m', x, y)
    {
      assert queue[Unshift(i, x)] == q'[x] && available[Unshift(j, y)] == a'[y];
      assert Settled(queue, available, m, Unshift(i, x), Unshift(j, y));
      LowerSettled(queue, available, m, m', i, j, x, y);
    }
  }

  lemma LowerSettled(queue: seq<Id>, available: seq<Id>, m: set<(Id, Id)>, m': set<(Id, Id)>, i: nat, j: nat, x: nat, y: nat)
    requires i < |queue| && j < |available| && x < |queue| - 1 && y < |available| - 1
    requires Settled(queue, available, m, Unshift(i, x), Unshift(j, y))
    requires m' == m - {(queue[i], available[j])}
    requires forall p :: p in m && (p.0 == queue[i] || p.1 == available[j]) ==> p == (queue[i], available[j])
    requires queue[Unshift(i, x)] != queue[i] && available[Unshift(j, y)] != available[j]
    ensures Settled(RemoveAt(queue, i), RemoveAt(available, j), m', x, y)
  {
    var q', a', x0, y0 := RemoveAt(queue, i), RemoveAt(available, j), Unshift(i, x), Unshift(j, y);
    if k :| 0 <= k <= y0 && (queue[x0], available[k]) in m {
      assert k != j;
      assert (q'[x], a'[if k < j then k else k - 1]) in m';
    } else {
      var k :| 0 <= k <= x0 && (queue[k], available[y0]) in m;
      assert k != i;
      assert (q'[if k < i then k else k - 1], a'[y]) in m';
    }
  }

  lemma AddTop(queue: seq<Id>, available: seq<Id>, ok: Compat, m: set<(Id, Id)>, i: nat, j: nat)
    requires NoDup(queue) && NoDup(available)
    requires MutualTop(queue, available, ok, i, j)
    requires Stable(RemoveAt(queue, i), RemoveAt(available, j), ok, m)
    ensures Stable(queue, available, ok, m + {(queue[i], available[j])})
  {
    RemoveAtMembers(queue, i);
    RemoveAtMembers(available, j);
    forall x, y | 0 <= x < |queue| && 0 <= y < |available| && ok(queue[x], available[y])
      ensures Settled(queue, available, m + {(queue[i], available[j])}, x, y)
    {
      AddTopSettles(queue, available, ok, m, i, j, x, y);
    }
  }

  lemma AddTopSettles(queue: seq<Id>, available: seq<Id>, ok: Compat, m: set<(Id, Id)>, i: nat, j: nat, x: nat, y: nat)
    requires MutualTop(queue, available, ok, i, j)
    requires Stable(RemoveAt(queue, i), RemoveAt(available, j), ok, m)
    requires x < |queue| && y < |available| && ok(queue[x], available[y])
    ensures Settled(queue, available, m + {(queue[i], available[j])}, x, y)
  {
    var m' := m + {(queue[i], available[j])};
    if x == i {
      assert (queue[x], available[j]) in m' && j <= y;
    } else if y == j {
      assert (queue[i], available[y]) in m' && i <= x;
    } else {
      var x', y' := if x < i then x else x - 1, if y < j then y else y - 1;
      assert RemoveAt(queue, i)[x'] == queue[x] && RemoveAt(available, j)[y'] == available[y];
      assert Settled(RemoveAt(queue, i), RemoveAt(available, j), m, x', y');
      LiftSettled(queue, available, m, m', i, j, x', y');
    }
  }

  lemma LiftSettled(queue: seq<Id>, available: seq<Id>, m: set<(Id, Id)>, m': set<(Id, Id)>, i: nat, j: nat, x: nat, y: nat)
    requires i < |queue| && j < |available| && x < |queue| - 1 && y < |available| - 1
    requires m <= m'
    requires Settled(RemoveAt(queue, i), RemoveAt(available, j), m, x, y)
    ensures Settled(queue, available, m', Unshift(i, x), Unshift(j, y))
  {
    var q', a' := RemoveAt(queue, i), RemoveAt(available, j);
    if k :| 0 <= k <= y && (q'[x], a'[k]) in m {
      assert (queue[Unshift(i, x)], available[Unshift(j, k)]) in m';
    } else {
      var k :| 0 <= k <= x && (q'[k], a'[y]) in m;
      assert (queue[Unshift(i, k)], available[Unshift(j, y)]) in m';
    }
  }

  /** Two stable matchings of the same lists are equal. */
  lemma {:induction false} StableIsUnique(queue: seq<Id>, available: seq<Id>, ok: Compat, m: set<(Id, Id)>, n: set<(Id, Id)>)
    requires NoDup(queue) && NoDup(available)
    requires Stable(queue, available, ok, m) && Stable(queue, available, ok, n)
    ensures m == n
    decreases |queue|
  {
    match MemoryNext(queue, available, ok)
    case None =>
      assert m == {} by { if p :| p in m { assert false; } }
      assert n == {} by { if p :| p in n { assert false; } }
    case Some((i, j)) =>
      var top := (queue[i], available[j]);
      TopPairIsMatched(queue, available, ok, m, i, j);
      TopPairIsMatched(queue, available, ok, n, i, j);
      PeelTop(queue, available, ok, m, i, j);
      PeelTop(queue, available, ok, n, i, j);
      RemoveAtMembers(queue, i);
      RemoveAtMembers(available, j);
      StableIsUnique(RemoveAt(queue, i), RemoveAt(available, j), ok, m - {top}, n - {top});
      assert m == (m - {top}) + {top};
      assert n == (n - {top}) + {top};
  }

  ghost function PairSet(pairs: seq<(Id, Id)>): set<(Id, Id)> {
    set p | p in pairs
  }

  // ---------------------------------------------------------------- both drains are stable

  ghost function RequestFree(m: set<(Id, Id)>): Id -> bool {
    q => forall p :: p in m ==> p.0 != q
  }

  ghost function ResponderFree(m: set<(Id, Id)>): Id -> bool {
    a => forall p :: p in m ==> p.1 != a
  }

  /** `d` hands out the stable matching of `queue` and `available` and leaves the rest in order. */
  ghost predicate DrainsTo(queue: seq<Id>, available: seq<Id>, ok: Compat, d: Drained) {
    var m := PairSet(d.pairs);
    && Stable(queue, available, ok, m)
    && d.queue == Filter(queue, RequestFree(m))
    && d.available == Filter(available, ResponderFree(m))
    && NoPair(d.queue, d.available, ok)
  }

  /** Handing out a mutual first choice and then draining what is left is a drain of the whole. */
  lemma DrainStep(queue: seq<Id>, available: seq<Id>, ok: Compat, i: nat, j: nat, rest: Drained)
    requires NoDup(queue) && NoDup(available)
    requires MutualTop(queue, available, ok, i, j)
    requires DrainsTo(RemoveAt(queue, i), RemoveAt(available, j), ok, rest)
    ensures DrainsTo(queue, available, ok, rest.(pairs := [(queue[i], available[j])] + rest.pairs))
  {
    var top := (queue[i], available[j]);
    var m := PairSet(rest.pairs);
    assert PairSet([top] + rest.pairs) == m + {top};
    AddTop(queue, available, ok, m, i, j);
    RemoveAtMembers(queue, i);
    RemoveAtMembers(available, j);
    FilterRemoveAt(queue, i, RequestFree(m + {top}));
    FilterRemoveAt(available, j, ResponderFree(m + {top}));
    FilterSame(RemoveAt(queue, i), RequestFree(m), RequestFree(m + {top}));
    FilterSame(RemoveAt(available, j), ResponderFree(m), ResponderFree(m + {top}));
  }

  lemma NothingToDrain(queue: seq<Id>, available: seq<Id>, ok: Compat)
    requires NoPair(queue, available, ok)
    ensures DrainsTo(queue, available, ok, Drained([], queue, available))
  {
    assert PairSet([]) == {};
    FilterAll(queue, RequestFree({}));
    FilterAll(available, ResponderFree({}));
  }

  lemma {:induction false} MemoryDrainIsStable(queue: seq<Id>, available: seq<Id>, ok: Compat)
    requires NoDup(queue) && NoDup(available)
    ensures DrainsTo(queue, available, ok, MemoryDrain(queue, available, ok))
    decreases |queue|
  {
    match MemoryNext(queue, available, ok)
    case None =>
      NothingToDrain(queue, available, ok);
    case Some((i, j)) =>
      RemoveAtMembers(queue, i);
      RemoveAtMembers(available, j);
      MemoryDrainIsStable(RemoveAt(queue, i), RemoveAt(available, j), ok);
      DrainStep(queue, available, ok, i, j, MemoryDrain(RemoveAt(queue, i), RemoveAt(available, j), ok));
  }

  ghost predicate Chosen(queue: seq<Id>, online: seq<Id>, ok: Compat, i: nat, j: nat, sid: Id, left: seq<Id>) {
    MutualTop(queue, online, ok, i, j) && online[j] == sid && left == RemoveAt(online, j)
  }

  /** What one run of the script does, seen on the responders that are present. */
  lemma {:induction false} ScriptChoice(queue: seq<Id>, available: seq<Id>, present: Id -> bool, ok: Compat)
    ensures ScriptNext(queue, available, present, ok).0.None? ==>
              NoPair(queue, Filter(available, present), ok) && ScriptNext(queue, available, present, ok).1 == Filter(available, present)
    ensures var r := ScriptNext(queue, available, present, ok);
            r.0.Some? ==>
              exists j: nat :: Chosen(queue, Filter(available, present), ok, r.0.value.0, j, r.0.value.1, Filter(r.1, present))
    decreases |available|
  {
    if available != [] {
      var rest := ScriptNext(queue, available[1..], present, ok);
      var online, tail := Filter(available, present), Filter(available[1..], present);
      ScriptChoice(queue, available[1..], present, ok);
      if present(available[0]) {
        var i := FirstRequest(queue, available[0], ok);
        if i < |queue| {
          assert RemoveAt(online, 0) == tail;
          assert Chosen(queue, online, ok, i, 0, available[0], tail);
        } else if rest.0.Some? {
          var j: nat :| Chosen(queue, tail, ok, rest.0.value.0, j, rest.0.value.1, Filter(rest.1, present));
          var left := [available[0]] + rest.1;
          assert left[1..] == rest.1;
          assert ScriptNext(queue, available, present, ok) == (rest.0, left);
          assert RemoveAt(online, j + 1) == [available[0]] + RemoveAt(tail, j);
          assert Chosen(queue, online, ok, rest.0.value.0, j + 1, rest.0.value.1, Filter(left, present));
        }
      } else if rest.0.Some? {
        assert ScriptNext(queue, available, present, ok) == rest;
        var j: nat :| Chosen(queue, tail, ok, rest.0.value.0, j, rest.0.value.1, Filter(rest.1, present));
        assert Chosen(queue, online, ok, rest.0.value.0, j, rest.0.value.1, Filter(rest.1, present));
      }
    }
  }

  lemma {:induction false} ScriptDrainIsStable(queue: seq<Id>, available: seq<Id>, present: Id -> bool, ok: Compat)
    requires NoDup(queue) && NoDup(available)
    ensures var d := ScriptDrain(queue, available, present, ok);
            DrainsTo(queue, Filter(available, present), ok, d)
    decreases |queue|
  {
    var (choice, left) := ScriptNext(queue, available, present, ok);
    var online := Filter(available, present);
    FilterMembers(available, present);
    ScriptChoice(queue, available, present, ok);
    match choice
    case None =>
      NothingToDrain(queue, online, ok);
    case Some((i, sid)) =>
      var j: nat :| Chosen(queue, online, ok, i, j, sid, Filter(left, present));
      ScriptLeftNoDup(queue, available, present, ok);
      RemoveAtMembers(queue, i);
      ScriptDrainIsStable(RemoveAt(queue, i), left, present, ok);
      DrainStep(queue, online, ok, i, j, ScriptDrain(RemoveAt(queue, i), left, present, ok));
  }

  lemma {:induction false} ScriptLeftNoDup(queue: seq<Id>, available: seq<Id>, present: Id -> bool, ok: Compat)
    requires NoDup(available)
    ensures var left := ScriptNext(queue, available, present, ok).1;
            NoDup(left) && forall a :: a in left ==> a in available
    decreases |available|
  {
    if available != [] {
      assert NoDup(available[1..]);
      assert available[0] !in available[1..];
      ScriptLeftNoDup(queue, available[1..], present, ok);
    }
  }

  /** The in-memory matcher over the responders that are present and the Redis script over the
      whole list hand out the same pairs, and leave the same queue and the same responders. */
  lemma MatchersAgree(queue: seq<Id>, available: seq<Id>, present: Id -> bool, ok: Compat)
    requires NoDup(queue) && NoDup(available)
    ensures var memory := MemoryDrain(queue, Filter(available, present), ok);
            var script := ScriptDrain(queue, available, present, ok);
            && PairSet(memory.pairs) == PairSet(script.pairs)
            && memory.queue == script.queue
            && memory.available == script.available
  {
    var online := Filter(available, present);
    FilterMembers(available, present);
    MemoryDrainIsStable(queue, online, ok);
    ScriptDrainIsStable(queue, available, present, ok);
    StableIsUnique(queue, online, ok, PairSet(MemoryDrain(queue, online, ok).pairs), PairSet(ScriptDrain(queue, available, present, ok).pairs));
  }

  /** Fairness of either drain: if a responder got `q`, every older request it could have taken
      went to a responder that had been waiting longer. */
  lemma OldestCompatibleFirst(queue: seq<Id>, available: seq<Id>, ok: Compat, i: nat, i': nat, j: nat)
    requires NoDup(queue) && NoDup(available)
    requires i' < i < |queue| && j < |available|
    requires (queue[i], available[j]) in MemoryDrain(queue, available, ok).pairs
    requires ok(queue[i'], available[j])
    ensures exists k :: 0 <= k < j && (queue[i'], available[k]) in MemoryDrain(queue, available, ok).pairs
  {
    MemoryDrainIsStable(queue, available, ok);
    StableIsFair(queue, available, ok, PairSet(MemoryDrain(queue, available, ok).pairs), i, i', j);
  }

  lemma StableIsFair(queue: seq<Id>, available: seq<Id>, ok: Compat, m: set<(Id, Id)>, i: nat, i': nat, j: nat)
    requires NoDup(queue) && NoDup(available) && Stable(queue, available, ok, m)
    requires i' < i < |queue| && j < |available|
    requires (queue[i], available[j]) in m && ok(queue[i'], available[j])
    ensures exists k :: 0 <= k < j && (queue[i'], available[k]) in m
  {
    assert Settled(queue, available, m, i', j);
    assert forall k :: 0 <= k <= i' ==> queue[k] != queue[i];
    assert forall k :: 0 <= k <= i' ==> (queue[k], available[j]) !in m;
  }
}
