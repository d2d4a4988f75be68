/** The credit decision (credit-control.service.ts). Money is in integer paise, percentages in integer
    hundredths of a percent. */
module CreditControl {
  import opened Wrappers
  import opened Sums

  datatype Decision = Allowed | Warning | ManagerApprovalRequired | Blocked

  datatype OverrideType = OverdueDispatch | CreditLimitExceed | TemporaryCreditExtension | OtherOverride

  datatype Override = Override(kind: OverrideType, approved: Option<int>, requested: Option<int>)

  datatype Reason =
    | CreditInactive | OverdueRestricted | OverdueOverrideApplied | LimitExceeded | CreditOverrideApplied | UsageAboveThreshold

  /** What the decision is made from, after the profile's defaults are applied. */
  datatype Terms = Terms(
    creditLimit: int, warningThreshold: int, active: bool, blockOnExceed: bool, managerApproval: bool,
    dispatchWithOverdue: bool, overrides: seq<Override>)

  datatype Position = Position(outstanding: int, overdue: int, amount: int)

  datatype Outcome = Outcome(decision: Decision, requiresOverride: bool, reasons: seq<Reason>, usage: int, exceed: int,
    canProceed: bool)

  function Rank(d: Decision): nat
  {
    match d case Allowed => 0 case Warning => 1 case ManagerApprovalRequired => 2 case Blocked => 3
  }

  /** num / den to the nearest integer, ties away from zero. */
  function RoundDiv(num: int, den: int): int
    requires den > 0
  {
    if num >= 0 then (2 * num + den) / (2 * den) else -((-2 * num + den) / (2 * den))
  }

  function Projected(p: Position): int { p.outstanding + p.amount }

  function Usage(t: Terms, p: Position): int
  {
    if t.creditLimit > 0 then RoundDiv(Projected(p) * 10000, t.creditLimit)
    else if Projected(p) > 0 then 10000
    else 0
  }

  function Exceed(t: Terms, p: Position): int { Max(Projected(p) - t.creditLimit, 0) }

  function FindOverride(overrides: seq<Override>, kinds: set<OverrideType>): Option<Override>
  {
    if overrides == [] then None
    else if overrides[0].kind in kinds then Some(overrides[0])
    else FindOverride(overrides[1..], kinds)
  }

  function OverrideAmount(o: Option<Override>): int
  {
    if o.None? then 0
    else if o.value.approved.Some? then o.value.approved.value
    else if o.value.requested.Some? then o.value.requested.value
    else 0
  }

  // ---------------------------------------------------------------- four independent verdicts

  function InactiveVerdict(t: Terms): Decision
  {
    if t.active then Allowed else Blocked
  }

  function OverdueVerdict(t: Terms, p: Position): Decision
  {
    if p.overdue <= 0 || t.dispatchWithOverdue || FindOverride(t.overrides, {OverdueDispatch}).Some? then Allowed
    else if t.managerApproval then ManagerApprovalRequired
    else Blocked
  }

  predicate Covered(t: Terms, p: Position)
  {
    var o := FindOverride(t.overrides, {CreditLimitExceed, TemporaryCreditExtension});
    o.Some? && OverrideAmount(o) >= Exceed(t, p)
  }

  function ExceedVerdict(t: Terms, p: Position): Decision
  {
    if Exceed(t, p) == 0 || Covered(t, p) then Allowed
    else if t.managerApproval then ManagerApprovalRequired
    else if t.blockOnExceed then Blocked
    else Warning
  }

  function UsageVerdict(t: Terms, p: Position): Decision
  {
    if Usage(t, p) >= t.warningThreshold then Warning else Allowed
  }

  function Stricter(a: Decision, b: Decision): Decision
  {
    if Rank(a) >= Rank(b) then a else b
  }

  function StrictestVerdict(t: Terms, p: Position): Decision
  {
    Stricter(Stricter(InactiveVerdict(t), OverdueVerdict(t, p)), Stricter(ExceedVerdict(t, p), UsageVerdict(t, p)))
  }

  function OverdueReasons(t: Terms, p: Position): seq<Reason>
  {
    if p.overdue <= 0 || t.dispatchWithOverdue then []
    else if FindOverride(t.overrides, {OverdueDispatch}).Some? then [OverdueOverrideApplied] else [OverdueRestricted]
  }

  function ExceedReasons(t: Terms, p: Position): seq<Reason>
  {
    if Exceed(t, p) == 0 then [] else if Covered(t, p) then [CreditOverrideApplied] else [LimitExceeded]
  }

  /** The reasons given, in the order they come up. */
  function ReasonsOf(t: Terms, p: Position): seq<Reason>
  {
    (if t.active then [] else [CreditInactive]) + OverdueReasons(t, p) + ExceedReasons(t, p)
    + if UsageVerdict(t, p) == Warning && InactiveVerdict(t) == OverdueVerdict(t, p) == ExceedVerdict(t, p) == Allowed
      then [UsageAboveThreshold] else []
  }

  /** Each reason is given exactly when its verdict speaks, or its override is what lets the order pass. */
  lemma ReasonsExactly(t: Terms, p: Position)
    ensures CreditInactive in ReasonsOf(t, p) <==> !t.active
    ensures OverdueRestricted in ReasonsOf(t, p) <==> OverdueVerdict(t, p) != Allowed
    ensures LimitExceeded in ReasonsOf(t, p) <==> ExceedVerdict(t, p) != Allowed
    ensures OverdueOverrideApplied in ReasonsOf(t, p) <==>
              p.overdue > 0 && !t.dispatchWithOverdue && FindOverride(t.overrides, {OverdueDispatch}).Some?
    ensures CreditOverrideApplied in ReasonsOf(t, p) <==> Exceed(t, p) > 0 && Covered(t, p)
    ensures UsageAboveThreshold in ReasonsOf(t, p) <==>
              UsageVerdict(t, p) == Warning && InactiveVerdict(t) == OverdueVerdict(t, p) == ExceedVerdict(t, p) == Allowed
  {
  }

  /** The service's order-dependent overwrites come to the strictest of the four verdicts, and an override
      is asked for exactly when manager approval is. */
  method EvaluateCreditDecision(t: Terms, p: Position) returns (r: Outcome)
    ensures r.decision == StrictestVerdict(t, p)
    ensures r.requiresOverride <==> r.decision == ManagerApprovalRequired
    ensures r.canProceed <==> t.active && OverdueVerdict(t, p) == Allowed && Rank(ExceedVerdict(t, p)) <= 1
    ensures r.usage == Usage(t, p) && r.exceed == Exceed(t, p)
    ensures r.reasons == ReasonsOf(t, p)
    ensures CreditInactive in r.reasons <==> !t.active
    ensures OverdueRestricted in r.reasons <==> OverdueVerdict(t, p) != Allowed
    ensures LimitExceeded in r.reasons <==> ExceedVerdict(t, p) != Allowed
    ensures OverdueOverrideApplied in r.reasons <==>
              p.overdue > 0 && !t.dispatchWithOverdue && FindOverride(t.overrides, {OverdueDispatch}).Some?
    ensures CreditOverrideApplied in r.reasons <==> Exceed(t, p) > 0 && Covered(t, p)
    ensures UsageAboveThreshold in r.reasons <==>
              UsageVerdict(t, p) == Warning && InactiveVerdict(t) == OverdueVerdict(t, p) == ExceedVerdict(t, p) == Allowed
  {
    var usage, exceedAmount := Usage(t, p), Exceed(t, p);
    var reasons: seq<Reason> := [];
    var decision, requiresOverride := Allowed, false;
    if !t.active {
      decision := Blocked;
      reasons := reasons + [CreditInactive];
    }
    if p.overdue > 0 && !t.dispatchWithOverdue {
      var overdueOverride := FindOverride(t.overrides, {OverdueDispatch});
      if overdueOverride.None? {
        reasons := reasons + [OverdueRestricted];
        if decision != Blocked {
          decision := if t.managerApproval then ManagerApprovalRequired else Blocked;
          requiresOverride := t.managerApproval;
        }
      } else {
        reasons := reasons + [OverdueOverrideApplied];
      }
    }
    ghost var first := if t.active then [] else [CreditInactive];
    assert reasons == first + OverdueReasons(t, p);
    if exceedAmount > 0 {
      var creditOverride := FindOverride(t.overrides, {CreditLimitExceed, TemporaryCreditExtension});
      if creditOverride.None? || OverrideAmount(creditOverride) < exceedAmount {
        reasons := reasons + [LimitExceeded];
        if decision != Blocked {
          if t.managerApproval {
            decision, requiresOverride := ManagerApprovalRequired, true;
          } else if t.blockOnExceed {
            decision := Blocked;
          } else {
            decision := Warning;
          }
        }
      } else {
        reasons := reasons + [CreditOverrideApplied];
      }
    }
    assert reasons == first + OverdueReasons(t, p) + ExceedReasons(t, p);
    if decision == Allowed && usage >= t.warningThreshold {
      decision := Warning;
      reasons := reasons + [UsageAboveThreshold];
    }
    PassesExactly(t, p);
    ReasonsExactly(t, p);
    return Outcome(decision, requiresOverride, reasons, usage, exceedAmount, decision in {Allowed, Warning});
  }

  // ---------------------------------------------------------------- monotonicity

  lemma TimesMonotone(a: int, b: int, d: int)
    requires d > 0 && a <= b
    ensures a * d <= b * d
  {
  }

  lemma DivMonotone(a: int, b: int, d: int)
    requires d > 0 && a <= b
    ensures a / d <= b / d
  {
    var p, q := a / d, b / d;
    assert p * d <= a && b < q * d + d;
    TimesMonotone(Min(p, q + 1), q + 1, d);
    if p >= q + 1 { TimesMonotone(q + 1, p, d); }
  }

  lemma RoundDivMonotone(a: int, b: int, d: int)
    requires d > 0 && a <= b
    ensures RoundDiv(a, d) <= RoundDiv(b, d)
  {
    if a >= 0 {
      DivMonotone(2 * a + d, 2 * b + d, 2 * d);
    } else if b < 0 {
      DivMonotone(-2 * b + d, -2 * a + d, 2 * d);
    } else {
      DivMonotone(0, -2 * a + d, 2 * d);
      DivMonotone(0, 2 * b + d, 2 * d);
    }
  }

  /** The decision never loosens as the amount, what is outstanding or what is overdue grows. */
  lemma DecisionNeverLoosens(t: Terms, p: Position, q: Position)
    requires p.outstanding <= q.outstanding && p.overdue <= q.overdue && p.amount <= q.amount
    ensures Rank(StrictestVerdict(t, p)) <= Rank(StrictestVerdict(t, q))
  {
    assert Usage(t, p) <= Usage(t, q) by {
      if t.creditLimit > 0 { RoundDivMonotone(Projected(p) * 10000, Projected(q) * 10000, t.creditLimit); }
    }
  }

  /** A decision lets an order through exactly when no verdict asks for approval or blocks. */
  lemma PassesExactly(t: Terms, p: Position)
    ensures (Rank(StrictestVerdict(t, p)) <= 1)
       <==> (t.active && OverdueVerdict(t, p) == Allowed && Rank(ExceedVerdict(t, p)) <= 1)
  {
  }

  // ---------------------------------------------------------------- the decision, from the terms themselves

  /** The first override of some kinds. */
  predicate IsFirst(overrides: seq<Override>, kinds: set<OverrideType>, i: nat)
  {
    && i < |overrides| && overrides[i].kind in kinds
    && forall k :: 0 <= k < i ==> overrides[k].kind !in kinds
  }

  lemma {:induction false} FindsFirst(overrides: seq<Override>, kinds: set<OverrideType>)
    ensures var r := FindOverride(overrides, kinds);
      && (r.None? <==> forall k :: 0 <= k < |overrides| ==> overrides[k].kind !in kinds)
      && forall i: nat :: IsFirst(overrides, kinds, i) ==> r == Some(overrides[i])
  {
    if overrides != [] && overrides[0].kind !in kinds {
      FindsFirst(overrides[1..], kinds);
      assert forall k :: 0 < k < |overrides| ==> overrides[k] == overrides[1..][k - 1];
      assert forall k :: 0 <= k < |overrides[1..]| ==> overrides[1..][k] == overrides[k + 1];
      forall i: nat | IsFirst(overrides, kinds, i) ensures FindOverride(overrides, kinds) == Some(overrides[i]) {
        assert IsFirst(overrides[1..], kinds, i - 1);
      }
    }
  }

  /** Overdue money stands in the way: some is overdue, and neither the terms nor an override let it pass. */
  predicate LateStands(t: Terms, p: Position)
  {
    p.overdue > 0 && !t.dispatchWithOverdue && forall k :: 0 <= k < |t.overrides| ==> t.overrides[k].kind != OverdueDispatch
  }

  /** The order goes beyond the limit, and the first override for that does not cover the excess: its approved
      amount, or else the requested one, is less. */
  ghost predicate ExcessStands(t: Terms, p: Position)
  {
    && p.outstanding + p.amount > t.creditLimit
    && forall i: nat :: IsFirst(t.overrides, {CreditLimitExceed, TemporaryCreditExtension}, i) ==>
         var o := t.overrides[i];
         (if o.approved.Some? then o.approved.value else if o.requested.Some? then o.requested.value else 0)
         < p.outstanding + p.amount - t.creditLimit
  }

  lemma {:induction false} SomeFirst(overrides: seq<Override>, kinds: set<OverrideType>) returns (i: nat)
    requires FindOverride(overrides, kinds).Some?
    ensures IsFirst(overrides, kinds, i)
  {
    if overrides[0].kind in kinds { i := 0; } else {
      var k := SomeFirst(overrides[1..], kinds);
      i := k + 1;
      assert forall n :: 0 < n < |overrides| ==> overrides[n] == overrides[1..][n - 1];
    }
  }

  /** Exactly when an order is blocked, left to a manager, warned about or let through. */
  lemma DecisionExactly(t: Terms, p: Position)
    ensures var d := StrictestVerdict(t, p);
      && (d == Blocked <==> !t.active || (!t.managerApproval && (LateStands(t, p) || (ExcessStands(t, p) && t.blockOnExceed))))
      && (d == ManagerApprovalRequired <==> t.active && t.managerApproval && (LateStands(t, p) || ExcessStands(t, p)))
      && (d == Warning <==>
            && t.active && !LateStands(t, p)
            && if ExcessStands(t, p) then !t.managerApproval && !t.blockOnExceed else Usage(t, p) >= t.warningThreshold)
  {
    FindsFirst(t.overrides, {OverdueDispatch});
    FindsFirst(t.overrides, {CreditLimitExceed, TemporaryCreditExtension});
    if FindOverride(t.overrides, {CreditLimitExceed, TemporaryCreditExtension}).Some? {
      var i := SomeFirst(t.overrides, {CreditLimitExceed, TemporaryCreditExtension});
    }
    assert OverdueVerdict(t, p) != Allowed <==> LateStands(t, p);
    assert ExceedVerdict(t, p) != Allowed <==> ExcessStands(t, p);
  }

  /** Usage is the projected share of the limit in hundredths of a percent, to the nearest. */
  lemma UsageNearest(t: Terms, p: Position)
    ensures t.creditLimit > 0 ==>
      -t.creditLimit <= 2 * (Usage(t, p) * t.creditLimit - (p.outstanding + p.amount) * 10000) <= t.creditLimit
    ensures t.creditLimit <= 0 ==> Usage(t, p) == if p.outstanding + p.amount > 0 then 10000 else 0
  {
    if t.creditLimit > 0 { RoundDivNearest(Projected(p) * 10000, t.creditLimit); }
  }

  lemma RoundDivNearest(num: int, den: int)
    requires den > 0
    ensures -den <= 2 * (RoundDiv(num, den) * den - num) <= den
  {
    var n := if num >= 0 then 2 * num + den else -2 * num + den;
    var q := n / (2 * den);
    assert q * (2 * den) <= n < q * (2 * den) + 2 * den;
    assert q * (2 * den) == 2 * (q * den);
    if num < 0 { assert RoundDiv(num, den) * den == -(q * den); }
  }

  /** Stricter terms never loosen the decision: not active, blocking beyond the limit, not dispatching with
      overdue money, or warning earlier. */
  lemma StricterTerms(t: Terms, p: Position, threshold: int)
    requires threshold <= t.warningThreshold
    ensures Rank(StrictestVerdict(t, p)) <= Rank(StrictestVerdict(t.(active := false), p))
    ensures Rank(StrictestVerdict(t, p)) <= Rank(StrictestVerdict(t.(blockOnExceed := true), p))
    ensures Rank(StrictestVerdict(t, p)) <= Rank(StrictestVerdict(t.(dispatchWithOverdue := false), p))
    ensures Rank(StrictestVerdict(t, p)) <= Rank(StrictestVerdict(t.(warningThreshold := threshold), p))
  {
  }
}
