/** The Redis side of matching: the assignment script over its lists and keys, and its agreement with the
    in-memory matcher. */
module Coordinator {
  import opened Sequences
  import opened Domain
  import Matching
  import Protocol
  import ServiceSpec
  import ServiceInvariant
  import ServiceMatching

  class Redis {
    var queue: seq<Id>
    var available: seq<Id>
    var presence: map<Id, int>
    var acceptAi: map<Id, bool>
    var kinds: map<Id, Kind>
    var routes: map<Id, Protocol.Route>
    var locks: map<Id, Id>

    constructor ()
      ensures queue == [] && available == []
    {
      queue, available, presence, acceptAi, kinds, routes, locks := [], [], map[], map[], map[], map[], map[];
    }

    /** Pushes the passed-over responders back to the head, last one first. */
    method RestoreSkipped(skipped: seq<Id>)
      modifies this`available
      ensures available == skipped + old(available)
    {
      var i := |skipped|;
      while i > 0
        invariant 0 <= i <= |skipped| && available == skipped[i..] + old(available)
      {
        i := i - 1;
        available := [skipped[i]] + available;
        assert skipped[i..] == [skipped[i]] + skipped[i + 1..];
      }
    }

    /** Pops responders until one has a request, dropping those whose presence has lapsed. */
    method PopResponders(minFresh: int) returns (choice: Option<(nat, Id)>, skipped: seq<Id>)
      modifies this`available, this`kinds, this`acceptAi
      ensures Pops(queue, old(available), Fresh(presence, minFresh), Fits(routes, old(kinds), old(acceptAi)), choice, skipped, available,
                   old(kinds), kinds, old(acceptAi), acceptAi)
    {
      ghost var present, ok := Fresh(presence, minFresh), Fits(routes, kinds, acceptAi);
      ghost var all, kinds0, accept0, n := available, kinds, acceptAi, 0;
      choice, skipped := None, [];
      StartPopping(queue, all, present, ok, kinds, acceptAi);
      while available != []
        invariant Popping(queue, all, n, present, ok, skipped, kinds0, kinds, accept0, acceptAi) && available == all[n..] && choice.None?
        decreases |available|
      {
        choice, skipped := PopOne(minFresh, skipped, all, n, kinds0, accept0);
        if choice.Some? {
          return;
        }
        n := n + 1;
      }
    }

    /** Pops one responder.  If it is present it gets the oldest request it suits, or is passed over; if not, it is
        forgotten. */
    method PopOne(minFresh: int, skipped: seq<Id>, ghost all: seq<Id>, ghost n: nat, ghost kinds0: map<Id, Kind>, ghost accept0: map<Id, bool>)
      returns (choice: Option<(nat, Id)>, passed: seq<Id>)
      requires n < |all| && available == all[n..]
      requires Popping(queue, all, n, Fresh(presence, minFresh), Fits(routes, kinds0, accept0), skipped, kinds0, kinds, accept0, acceptAi)
      modifies this`available, this`kinds, this`acceptAi
      ensures available == all[n + 1..]
      ensures var present, ok := Fresh(presence, minFresh), Fits(routes, kinds0, accept0);
              if choice.Some? then Pops(queue, all, present, ok, choice, passed, available, kinds0, kinds, accept0, acceptAi)
              else Popping(queue, all, n + 1, present, ok, passed, kinds0, kinds, accept0, acceptAi)
    {
      ghost var present, ok := Fresh(presence, minFresh), Fits(routes, kinds0, accept0);
      PopStep(queue, all, n, present, ok, skipped, kinds0, kinds, accept0, acceptAi);
      SameChoice(queue, all[n], present, all[..n], routes, kinds0, kinds, accept0, acceptAi);
      var sid := available[0];
      available := available[1..];
      if sid in presence && presence[sid] >= minFresh {
        var i := FirstSuited(sid);
        SameFirst(queue, sid, Fits(routes, kinds, acceptAi), i);
        if i < |queue| {
          return Some((i, sid)), skipped;
        }
        return None, skipped + [sid];
      }
      acceptAi := acceptAi - {sid};
      kinds := kinds - {sid};
      return None, skipped;
    }

    /** One run of the script. */
    method RunAssignScript(minFresh: int) returns (r: Option<(Id, Id)>)
      modifies this
      ensures var present, ok := Fresh(presence, minFresh), Fits(routes, old(kinds), old(acceptAi));
              var (choice, left) := Matching.ScriptNext(old(queue), old(available), present, ok);
              && available == left
              && match choice
                 case None => r == None && queue == old(queue) && locks == old(locks)
                 case Some((i, sid)) =>
                   && r == Some((old(queue)[i], sid))
                   && queue == RemoveAt(old(queue), i)
                   && locks == old(locks)[old(queue)[i] := sid]
      ensures presence == old(presence) && routes == old(routes)
      ensures var present := Fresh(presence, minFresh);
              var popped := old(available)[..Popped(old(queue), old(available), present, Fits(routes, old(kinds), old(acceptAi)))];
              kinds == Kept(old(kinds), popped, present) && acceptAi == Kept(old(acceptAi), popped, present)
    {
      ghost var ok := Fits(routes, kinds, acceptAi);
      var choice, skipped := PopResponders(minFresh);
      RestoreSkipped(skipped);
      if choice.None? {
        return None;
      }
      var (i, sid) := choice.value;
      var q := queue[i];
      FirstSuitedIs(queue, old(available), Fresh(presence, minFresh), ok);
      RemoveFirstIs(queue, i, sid, ok);
      queue := Protocol.RemoveFirst(queue, q);
      locks := locks[q := sid];
      return Some((q, sid));
    }

    /** The oldest queued request the routing keys allow for `sid`. */
    method FirstSuited(sid: Id) returns (i: nat)
      ensures i <= |queue|
      ensures i < |queue| ==> Suited(routes, kinds, acceptAi, queue[i], sid)
      ensures forall k :: 0 <= k < i ==> !Suited(routes, kinds, acceptAi, queue[k], sid)
    {
      i := 0;
      while i < |queue|
        invariant i <= |queue|
        invariant forall k :: 0 <= k < i ==> !Suited(routes, kinds, acceptAi, queue[k], sid)
      {
        if Suited(routes, kinds, acceptAi, queue[i], sid) {
          return;
        }
        i := i + 1;
      }
    }
  }

  /** How many responders one run of the script pops: all up to and with the first present one that suits a request. */
  function Popped(queue: seq<Id>, available: seq<Id>, present: Id -> bool, ok: Matching.Compat): (n: nat)
    ensures n <= |available|
  {
    if available == [] then 0
    else if present(available[0]) && Matching.FirstRequest(queue, available[0], ok) < |queue| then 1
    else 1 + Popped(queue, available[1..], present, ok)
  }

  lemma {:induction false} PoppedExactly(queue: seq<Id>, available: seq<Id>, present: Id -> bool, ok: Matching.Compat)
    ensures var n := Popped(queue, available, present, ok);
            && (forall k, i :: 0 <= k < n - 1 && present(available[k]) && 0 <= i < |queue| ==> !ok(queue[i], available[k]))
            && (n < |available| ==> n > 0 && present(available[n - 1]) && exists i :: 0 <= i < |queue| && ok(queue[i], available[n - 1]))
    decreases |available|
  {
    if available != [] && !(present(available[0]) && Matching.FirstRequest(queue, available[0], ok) < |queue|) {
      PoppedExactly(queue, available[1..], present, ok);
      assert forall k :: 0 < k < |available| ==> available[k] == available[1..][k - 1];
    }
  }

  /** What a hash keeps: all entries but those of popped responders that are not present. */
  function Kept<T>(before: map<Id, T>, popped: seq<Id>, present: Id -> bool): map<Id, T> {
    map a | a in before && (a in popped ==> present(a)) :: before[a]
  }

  lemma KeptOne<T>(before: map<Id, T>, mid: map<Id, T>, popped: seq<Id>, a: Id, present: Id -> bool)
    requires mid == Kept(before, popped, present)
    ensures Kept(before, popped + [a], present) == if present(a) then mid else mid - {a}
  {
  }

  /** The script has popped `n` of the responders `all`, passed over those in `skipped`, and forgotten the lapsed ones. */
  ghost predicate Popping(queue: seq<Id>, all: seq<Id>, n: nat, present: Id -> bool, ok: Matching.Compat, skipped: seq<Id>,
                          kinds: map<Id, Kind>, kinds': map<Id, Kind>, acceptAi: map<Id, bool>, acceptAi': map<Id, bool>) {
    && n <= |all| && Popped(queue, all, present, ok) == n + Popped(queue, all[n..], present, ok)
    && Matching.ScriptNext(queue, all, present, ok) == Behind(skipped, Matching.ScriptNext(queue, all[n..], present, ok))
    && kinds' == Kept(kinds, all[..n], present) && acceptAi' == Kept(acceptAi, all[..n], present)
  }

  /** A run of the script has popped what it pops: its choice, the passed-over and the untouched responders are those of
      the specification, and the hashes keep all but the lapsed ones. */
  ghost predicate Pops(queue: seq<Id>, all: seq<Id>, present: Id -> bool, ok: Matching.Compat, choice: Option<(nat, Id)>, skipped: seq<Id>,
                       left: seq<Id>, kinds: map<Id, Kind>, kinds': map<Id, Kind>, acceptAi: map<Id, bool>, acceptAi': map<Id, bool>) {
    var n := Popped(queue, all, present, ok);
    && Matching.ScriptNext(queue, all, present, ok) == (choice, skipped + left) && left == all[n..]
    && kinds' == Kept(kinds, all[..n], present) && acceptAi' == Kept(acceptAi, all[..n], present)
  }

  lemma StartPopping(queue: seq<Id>, all: seq<Id>, present: Id -> bool, ok: Matching.Compat, kinds: map<Id, Kind>, acceptAi: map<Id, bool>)
    ensures Popping(queue, all, 0, present, ok, [], kinds, kinds, acceptAi, acceptAi)
  {
    assert all[0..] == all;
    var r := Matching.ScriptNext(queue, all, present, ok);
    assert [] + r.1 == r.1;
  }

  lemma PopStep(queue: seq<Id>, all: seq<Id>, n: nat, present: Id -> bool, ok: Matching.Compat, skipped: seq<Id>,
                kinds: map<Id, Kind>, kinds': map<Id, Kind>, acceptAi: map<Id, bool>, acceptAi': map<Id, bool>)
    requires Popping(queue, all, n, present, ok, skipped, kinds, kinds', acceptAi, acceptAi') && n < |all|
    ensures all[n..][1..] == all[n + 1..]
    ensures !present(all[n]) ==> Popping(queue, all, n + 1, present, ok, skipped, kinds, kinds' - {all[n]}, acceptAi, acceptAi' - {all[n]})
    ensures var i := Matching.FirstRequest(queue, all[n], ok);
            present(all[n]) ==>
              if i < |queue| then
                Pops(queue, all, present, ok, Some((i, all[n])), skipped, all[n + 1..], kinds, kinds', acceptAi, acceptAi')
              else
                Popping(queue, all, n + 1, present, ok, skipped + [all[n]], kinds, kinds', acceptAi, acceptAi')
  {
    assert all[n..][1..] == all[n + 1..] && all[..n + 1] == all[..n] + [all[n]];
    ScriptHead(queue, all[n..], present, ok, skipped);
    KeptOne(kinds, kinds', all[..n], all[n], present);
    KeptOne(acceptAi, acceptAi', all[..n], all[n], present);
  }

  /** An outcome of the script with passed-over responders in front. */
  function Behind(skipped: seq<Id>, r: (Option<(nat, Id)>, seq<Id>)): (Option<(nat, Id)>, seq<Id>) {
    (r.0, skipped + r.1)
  }

  /** What the responder at the head makes of the rest. */
  lemma ScriptHead(queue: seq<Id>, available: seq<Id>, present: Id -> bool, ok: Matching.Compat, skipped: seq<Id>)
    requires available != []
    ensures var a, rest, all := available[0], available[1..], Behind(skipped, Matching.ScriptNext(queue, available, present, ok));
            var i := Matching.FirstRequest(queue, a, ok);
            && (!present(a) ==> all == Behind(skipped, Matching.ScriptNext(queue, rest, present, ok)))
            && (present(a) && i < |queue| ==> all == (Some((i, a)), skipped + rest))
            && (present(a) && i >= |queue| ==> all == Behind(skipped + [a], Matching.ScriptNext(queue, rest, present, ok)))
  {
    var rest := Matching.ScriptNext(queue, available[1..], present, ok);
    assert skipped + ([available[0]] + rest.1) == skipped + [available[0]] + rest.1;
  }

  function Fresh(presence: map<Id, int>, minFresh: int): Id -> bool {
    a => a in presence && presence[a] >= minFresh
  }

  predicate Suited(routes: map<Id, Protocol.Route>, kinds: map<Id, Kind>, acceptAi: map<Id, bool>, q: Id, a: Id) {
    var route := if q in routes then routes[q] else Protocol.Route(Human, true, "");
    Protocol.RouteSuits(route, a, if a in kinds then kinds[a] else Human, a in acceptAi ==> acceptAi[a])
  }

  function Fits(routes: map<Id, Protocol.Route>, kinds: map<Id, Kind>, acceptAi: map<Id, bool>): Matching.Compat {
    (q, a) => Suited(routes, kinds, acceptAi, q, a)
  }

  /** What a present responder is offered does not depend on what was forgotten about others. */
  lemma SameChoice(queue: seq<Id>, a: Id, present: Id -> bool, popped: seq<Id>, routes: map<Id, Protocol.Route>,
                   kinds: map<Id, Kind>, kinds': map<Id, Kind>, acceptAi: map<Id, bool>, acceptAi': map<Id, bool>)
    requires kinds' == Kept(kinds, popped, present) && acceptAi' == Kept(acceptAi, popped, present)
    ensures present(a) ==> Matching.FirstRequest(queue, a, Fits(routes, kinds', acceptAi')) == Matching.FirstRequest(queue, a, Fits(routes, kinds, acceptAi))
  {
    if present(a) {
      assert forall q :: Suited(routes, kinds', acceptAi', q, a) == Suited(routes, kinds, acceptAi, q, a);
      SameFirst(queue, a, Fits(routes, kinds, acceptAi), Matching.FirstRequest(queue, a, Fits(routes, kinds', acceptAi')));
    }
  }

  lemma SameFirst(queue: seq<Id>, a: Id, ok: Matching.Compat, i: nat)
    requires i <= |queue| && (i < |queue| ==> ok(queue[i], a)) && forall k :: 0 <= k < i ==> !ok(queue[k], a)
    ensures i == Matching.FirstRequest(queue, a, ok)
  {
  }

  /** The script picks the oldest request its responder can take. */
  lemma {:induction false} FirstSuitedIs(queue: seq<Id>, available: seq<Id>, present: Id -> bool, ok: Matching.Compat)
    ensures var choice := Matching.ScriptNext(queue, available, present, ok).0;
            choice.Some? ==> choice.value.0 < |queue| && forall k :: 0 <= k < choice.value.0 ==> !ok(queue[k], choice.value.1)
    decreases |available|
  {
    if available != [] {
      FirstSuitedIs(queue, available[1..], present, ok);
    }
  }

  lemma {:induction false} RemoveFirstIs(queue: seq<Id>, i: nat, a: Id, ok: Matching.Compat)
    requires i < |queue| && ok(queue[i], a) && forall k :: 0 <= k < i ==> !ok(queue[k], a)
    ensures Protocol.RemoveFirst(queue, queue[i]) == RemoveAt(queue, i)
    decreases i
  {
    if i > 0 {
      assert queue[0] != queue[i];
      RemoveFirstIs(queue[1..], i - 1, a, ok);
      assert RemoveAt(queue, i) == [queue[0]] + RemoveAt(queue[1..], i - 1);
    }
  }

  /** The keys in Redis say the same as the records of the service. */
  ghost predicate SameRecords(s: ServiceSpec.State, routes: map<Id, Protocol.Route>, kinds: map<Id, Kind>, acceptAi: map<Id, bool>) {
    && (forall q :: q in s.requests ==> q in routes && routes[q] == Protocol.RouteFor(s.requests[q].ask))
    && (forall a :: a in s.responders ==> a in s.sessions && a in kinds && kinds[a] == KindOrHuman(s.sessions[a].kind))
    && acceptAi == s.acceptAi
  }

  lemma SameTestFor(s: ServiceSpec.State, routes: map<Id, Protocol.Route>, kinds: map<Id, Kind>, acceptAi: map<Id, bool>, q: Id, a: Id)
    requires SameRecords(s, routes, kinds, acceptAi)
    requires q in s.requests && s.requests[q].status == Queued && a in s.responders && a !in s.active
    ensures ServiceSpec.Compatible(s, q, a) == Suited(routes, kinds, acceptAi, q, a)
  {
  }

  lemma SameTest(s: ServiceSpec.State, routes: map<Id, Protocol.Route>, kinds: map<Id, Kind>, acceptAi: map<Id, bool>)
    requires ServiceInvariant.QueueOk(s) && ServiceInvariant.AvailableOk(s) && SameRecords(s, routes, kinds, acceptAi)
    ensures ServiceMatching.Agree(s.queue, s.available, ServiceSpec.CompatibleIn(s), Fits(routes, kinds, acceptAi))
  {
    forall q, a | q in s.queue && a in s.available
      ensures ServiceSpec.Compatible(s, q, a) == Suited(routes, kinds, acceptAi, q, a)
    {
      SameTestFor(s, routes, kinds, acceptAi, q, a);
    }
  }

  /** The same questions and the same present responders: a matching pass of the in-memory service and a drain
      with the Redis script end with the same queue, the same available list and the same assignments. */
  lemma BackendsPairAlike(s: ServiceSpec.State, now: int, available: seq<Id>, present: Id -> bool,
                          routes: map<Id, Protocol.Route>, kinds: map<Id, Kind>, acceptAi: map<Id, bool>)
    requires ServiceInvariant.Inv(s) && ServiceMatching.RoomForAll(s) && SameRecords(s, routes, kinds, acceptAi)
    requires NoDup(available) && s.available == Filter(available, present)
    ensures var memory := ServiceSpec.TryAssign(s, now);
            var script := Matching.ScriptDrain(s.queue, available, present, Fits(routes, kinds, acceptAi));
            && memory.queue == script.queue && memory.available == script.available
            && (forall p :: p in script.pairs ==> p.1 in memory.active && memory.active[p.1] == p.0)
            && (forall a :: a in memory.active && a !in s.active ==> (memory.active[a], a) in script.pairs)
  {
    var ok, ok' := ServiceSpec.CompatibleIn(s), Fits(routes, kinds, acceptAi);
    ServiceMatching.TryAssignIsDrain(s, now);
    SameTest(s, routes, kinds, acceptAi);
    ServiceMatching.SameDrain(s.queue, s.available, ok, ok');
    Matching.MatchersAgree(s.queue, available, present, ok');
    var d, d' := Matching.MemoryDrain(s.queue, s.available, ok'), Matching.ScriptDrain(s.queue, available, present, ok');
    assert forall p :: p in d'.pairs <==> p in Matching.PairSet(d'.pairs);
    assert forall p :: p in d.pairs <==> p in Matching.PairSet(d.pairs);
  }
}
