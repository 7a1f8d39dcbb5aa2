/** The deterministic gate in front of every open: the first failing rule
    vetoes, in a fixed order. */
module RiskGate {
  import opened Basics
  import opened Contracts

  datatype Limits = Limits(
    maxPositions: int,
    minEdgeBps: real,
    maxNotional: real,
    maxExposure: real)

  datatype Verdict =
    | Approved
    | EdgeBelowFloor
    | AlreadyHeld
    | TooManyPositions
    | NotionalTooLarge
    | ExposureTooLarge

  /** The gate reads three facts about the account: whether the asset is held,
      how many positions are open, and the exposure. */
  function Evaluate(limits: Limits, c: Candidate, held: bool, open: nat, exposure: real): Verdict {
    if c.cost.edgeAfterCostBps < limits.minEdgeBps then EdgeBelowFloor
    else if held then AlreadyHeld
    else if open >= limits.maxPositions then TooManyPositions
    else if c.notional > limits.maxNotional then NotionalTooLarge
    else if exposure + c.notional > limits.maxExposure then ExposureTooLarge
    else Approved
  }

  /** The rules in their order, true where a rule objects. */
  function Objections(limits: Limits, c: Candidate, held: bool, open: nat, exposure: real): seq<(bool, Verdict)> {
    [
      (limits.minEdgeBps > c.cost.edgeAfterCostBps, EdgeBelowFloor),
      (held, AlreadyHeld),
      (limits.maxPositions - open <= 0, TooManyPositions),
      (limits.maxNotional - c.notional < 0.0, NotionalTooLarge),
      (limits.maxExposure - exposure < c.notional, ExposureTooLarge)]
  }

  /** The verdict is that of the first rule that objects. */
  lemma {:induction false} FirstObjectionVetoes(limits: Limits, c: Candidate, held: bool, open: nat, exposure: real)
    ensures
      var rules, verdict := Objections(limits, c, held, open, exposure), Evaluate(limits, c, held, open, exposure);
      && (verdict == Approved <==> forall i :: 0 <= i < 5 ==> !rules[i].0)
      && forall i :: 0 <= i < 5 && rules[i].0 && (forall k :: 0 <= k < i ==> !rules[k].0) ==> verdict == rules[i].1
  {
    var rules := Objections(limits, c, held, open, exposure);
    assert rules[0].0 || rules[1].0 || rules[2].0 || rules[3].0 || rules[4].0
        || Evaluate(limits, c, held, open, exposure) == Approved;
  }
}
