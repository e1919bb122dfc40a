/** When exactly a balance falls below zero, and that it does happen. */
module Overdraft {
  import opened Sequences
  import opened Domain
  import opened ServiceSpec
  import opened RequestRules
  import opened ServiceInvariant
  import opened ServiceOperations
  import opened ServiceEffects
  import opened FragmentOrigin

  /** Nothing but a reaction overdraws anyone. */
  lemma OthersOverdrawNobody(s: State, op: Op, u: Id)
    requires Inv(s) && Enabled(s, op) && !op.DoReact? && u in s.users && Spendable(s, u) >= 0
    ensures Spendable(Step(s, op), u) >= 0
  {
    StepAffords(s, op, u);
    StepLowersNothing(s, op, u);
  }

  lemma StepAffords(s: State, op: Op, u: Id)
    requires Inv(s) && Enabled(s, op) && u in s.users
    ensures AffordsFor(s, Step(s, op), u)
  {
    StepSound(s, op);
    AffordsEach(s, Step(s, op), u);
  }

  lemma AffordsEach(s: State, t: State, u: Id)
    requires Advances(s, t) && u in s.users
    ensures AffordsFor(s, t, u)
  {
  }

  lemma StepLowersNothing(s: State, op: Op, u: Id)
    requires Enabled(s, op) && !op.DoReact?
    ensures Lowered(Step(s, op).ledger, u) == Lowered(s.ledger, u)
  {
    if op.DoSubmit? {
      SubmitLowersNothing(s, op.session, op.clientSeq, op.text, op.fragment, op.now);
    } else {
      OthersKeepAnswers(s, op);
    }
  }

  /** The change that a reaction makes to the reward of the responder. */
  function WorthChange(r: Request, reaction: Reaction, u: Id): int {
    if Rewarded(r.responder) == Some(u) then Worth(reaction) - Worth(r.reaction) else 0
  }

  lemma ReactionBalance(s: State, q: Id, reaction: Reaction, u: Id)
    requires q in s.requests && IsTerminal(s.requests[q].status)
    ensures Spendable(ApplyReaction(s, q, reaction), u) == Spendable(s, u) + WorthChange(s.requests[q], reaction, u)
  {
    ReactionLedger(s, q, reaction, u);
    HeldStep(s, q, s.requests[q].(reaction := reaction), u);
  }

  lemma ReactionLedger(s: State, q: Id, reaction: Reaction, u: Id)
    requires q in s.requests
    ensures Total(ApplyReaction(s, q, reaction).ledger, u) == Total(s.ledger, u) + WorthChange(s.requests[q], reaction, u)
  {
    var r := s.requests[q];
    Reacted(s, q, reaction);
    AdjustmentTotals(s.ledger, Rewarded(r.responder), q, Worth(reaction) - Worth(r.reaction), u);
  }

  lemma AdjustmentTotals(ledger: seq<Entry>, w: Option<Id>, q: Id, delta: int, u: Id)
    ensures Total(ledger + (if w.Some? && delta != 0 then [Entry(w.value, q, ReactionAdjustment, delta)] else []), u)
         == Total(ledger, u) + if w == Some(u) then delta else 0
  {
    if w.Some? && delta != 0 {
      TotalAppend(ledger, Entry(w.value, q, ReactionAdjustment, delta), u);
    } else {
      assert ledger + [] == ledger;
    }
  }

  /** The one way a balance falls below zero, exactly: a reaction by someone who may react lowers the reward of an answer
      of `u` by more than `u` has left. */
  lemma OverdrawnIff(s: State, op: Op, u: Id)
    requires Inv(s) && Enabled(s, op) && u in s.users && BalanceOf(s, u).available >= 0
    ensures BalanceOf(Step(s, op), u).available < 0 <==>
              && op.DoReact? && MayReact(s, op.token, op.request, op.reaction, op.now)
              && Rewarded(s.requests[op.request].responder) == Some(u)
              && BalanceOf(s, u).available + Worth(op.reaction) - Worth(s.requests[op.request].reaction) < 0
  {
    if op.DoReact? {
      CompletedIsOver(s, op.request);
      ReactStep(s, op, u);
    } else {
      OthersOverdrawNobody(s, op, u);
    }
  }

  lemma CompletedIsOver(s: State, q: Id)
    requires RequestsOk(s)
    ensures q in s.requests && s.requests[q].completedAt.Some? ==> IsTerminal(s.requests[q].status)
  {
    assert q in s.requests ==> RequestOk(s.requests[q]);
  }

  lemma ReactStep(s: State, op: Op, u: Id)
    requires op.DoReact?
    requires op.request in s.requests && s.requests[op.request].completedAt.Some? ==> IsTerminal(s.requests[op.request].status)
    ensures Spendable(Step(s, op), u) == Spendable(s, u)
              + if MayReact(s, op.token, op.request, op.reaction, op.now) then WorthChange(s.requests[op.request], op.reaction, u) else 0
  {
    ReactionAccepted(s, op.token, op.request, op.reaction, op.now);
    if MayReact(s, op.token, op.request, op.reaction, op.now) {
      ReactionBalance(s, op.request, op.reaction, u);
    }
  }
}
