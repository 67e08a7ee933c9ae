/**
 * The steps and phases of a turn (`src/phase.rs`). The enums derive `Ord`, so a step
 * compares first by which variant it is and then, within one variant, by the step
 * it carries; both comparisons follow declaration order.
 */
module Phases {

  /** `BeginningStep`. */
  datatype BeginningStep = Untap | Upkeep | Draw

  /** `CombatStep`. */
  datatype CombatStep =
    | BeginCombat
    | DeclareAttackers
    | DeclareBlockers
    | FirstCombatDamage
    | CombatDamage
    | EndCombat

  /** `EndingStep`. */
  datatype EndingStep = End | Cleanup

  /** `Step`: the two main phases are steps of their own. */
  datatype Step =
    | Beginning(b: BeginningStep)
    | FirstMain
    | Combat(c: CombatStep)
    | SecondMain
    | Ending(e: EndingStep)

  /** `Phase`. */
  datatype Phase = BeginningPhase | FirstMainPhase | CombatPhase | SecondMainPhase | EndingPhase

  // ---------------------------------------------------------------------------
  // The derived orderings.

  /** Declaration position of a beginning step. */
  function BeginningIndex(b: BeginningStep): nat
  {
    match b
    case Untap => 0
    case Upkeep => 1
    case Draw => 2
  }

  /** Declaration position of a combat step. */
  function CombatIndex(c: CombatStep): nat
  {
    match c
    case BeginCombat => 0
    case DeclareAttackers => 1
    case DeclareBlockers => 2
    case FirstCombatDamage => 3
    case CombatDamage => 4
    case EndCombat => 5
  }

  /** Declaration position of an ending step. */
  function EndingIndex(e: EndingStep): nat
  {
    match e
    case End => 0
    case Cleanup => 1
  }

  /** Declaration position of a step's variant. */
  function VariantIndex(s: Step): nat
  {
    match s
    case Beginning(_) => 0
    case FirstMain => 1
    case Combat(_) => 2
    case SecondMain => 3
    case Ending(_) => 4
  }

  /** Declaration position of the step a variant carries; 0 for the main phases, which carry none. */
  function FieldIndex(s: Step): nat
  {
    match s
    case Beginning(b) => BeginningIndex(b)
    case FirstMain => 0
    case Combat(c) => CombatIndex(c)
    case SecondMain => 0
    case Ending(e) => EndingIndex(e)
  }

  /** The derived `<` on `Step`: by variant, then by the carried step. */
  predicate StepLess(a: Step, b: Step)
  {
    VariantIndex(a) < VariantIndex(b) || (VariantIndex(a) == VariantIndex(b) && FieldIndex(a) < FieldIndex(b))
  }

  /** Declaration position of a phase. */
  function PhaseIndex(p: Phase): nat
  {
    match p
    case BeginningPhase => 0
    case FirstMainPhase => 1
    case CombatPhase => 2
    case SecondMainPhase => 3
    case EndingPhase => 4
  }

  /** The derived `<=` on `Phase`. */
  predicate PhaseAtMost(p: Phase, q: Phase)
  {
    PhaseIndex(p) <= PhaseIndex(q)
  }

  /** A step is determined by its variant and the step it carries. */
  lemma IndicesDetermineStep(a: Step, b: Step)
    requires VariantIndex(a) == VariantIndex(b) && FieldIndex(a) == FieldIndex(b)
    ensures a == b
  {
  }

  /** The derived order on steps is a strict total order. */
  lemma StepLessIsStrictTotalOrder(a: Step, b: Step, c: Step)
    ensures !StepLess(a, a)
    ensures StepLess(a, b) && StepLess(b, c) ==> StepLess(a, c)
    ensures a == b || StepLess(a, b) || StepLess(b, a)
  {
    if !StepLess(a, b) && !StepLess(b, a) {
      IndicesDetermineStep(a, b);
    }
  }

  // ---------------------------------------------------------------------------
  // `Step::iterator`.

  /** `Step::iterator`: the steps of a turn in the order they happen. */
  const Steps: seq<Step> := [
    Beginning(Untap), Beginning(Upkeep), Beginning(Draw),
    FirstMain,
    Combat(BeginCombat), Combat(DeclareAttackers), Combat(DeclareBlockers),
    Combat(FirstCombatDamage), Combat(CombatDamage), Combat(EndCombat),
    SecondMain,
    Ending(End), Ending(Cleanup)
  ]

  /** The position of a step in a turn. */
  function TurnPosition(s: Step): (n: nat)
    ensures n < |Steps| && Steps[n] == s
  {
    match s
    case Beginning(b) => BeginningIndex(b)
    case FirstMain => 3
    case Combat(c) => 4 + CombatIndex(c)
    case SecondMain => 10
    case Ending(e) => 11 + EndingIndex(e)
  }

  /** The derived order on steps is the order in which a turn reaches them. */
  lemma StepLessIsTurnOrder(a: Step, b: Step)
    ensures StepLess(a, b) <==> TurnPosition(a) < TurnPosition(b)
  {
  }

  /** Each step occurs in a turn exactly once, at its turn position. */
  lemma StepsAreDistinct(i: nat, j: nat)
    requires i < |Steps| && j < |Steps|
    ensures Steps[i] == Steps[j] ==> i == j
    ensures TurnPosition(Steps[i]) == i
  {
  }

  /** The iterator holds thirteen steps, covers every step, and is strictly increasing. */
  lemma StepsAreSortedAndComplete(s: Step, i: nat, j: nat)
    requires i < j < |Steps|
    ensures |Steps| == 13
    ensures s in Steps
    ensures StepLess(Steps[i], Steps[j])
  {
    assert Steps[TurnPosition(s)] == s;
    StepsAreDistinct(i, i);
    StepsAreDistinct(j, j);
    StepLessIsTurnOrder(Steps[i], Steps[j]);
  }

  // ---------------------------------------------------------------------------
  // `Step::phase` and `Step::has_priority`.

  /** `Step::phase`: the phase a step belongs to; each main phase is its own step. */
  function PhaseOf(s: Step): (p: Phase)
    ensures s.Beginning? <==> p == BeginningPhase
    ensures s == FirstMain <==> p == FirstMainPhase
    ensures s.Combat? <==> p == CombatPhase
    ensures s == SecondMain <==> p == SecondMainPhase
    ensures s.Ending? <==> p == EndingPhase
  {
    match s
    case Beginning(_) => BeginningPhase
    case FirstMain => FirstMainPhase
    case Combat(_) => CombatPhase
    case SecondMain => SecondMainPhase
    case Ending(_) => EndingPhase
  }

  /** A later step never belongs to an earlier phase. */
  lemma PhaseIsMonotone(a: Step, b: Step)
    requires StepLess(a, b)
    ensures PhaseAtMost(PhaseOf(a), PhaseOf(b))
  {
  }

  /** Along a turn the phase never goes back. */
  lemma PhasesFollowTurn(i: nat, j: nat)
    requires i <= j < |Steps|
    ensures PhaseAtMost(PhaseOf(Steps[i]), PhaseOf(Steps[j]))
  {
    if i < j {
      StepsAreSortedAndComplete(Steps[i], i, j);
      PhaseIsMonotone(Steps[i], Steps[j]);
    }
  }

  /** `Step::has_priority`: players receive priority in every step but untap and cleanup. */
  function HasPriority(s: Step): (r: bool)
    ensures !r <==> s == Beginning(Untap) || s == Ending(Cleanup)
  {
    match s
    case Beginning(Untap) => false
    case Ending(Cleanup) => false
    case _ => true
  }

  /** The steps without priority are exactly the first and the last step of a turn. */
  lemma NoPriorityAtTheEdges(s: Step)
    ensures !HasPriority(s) <==> TurnPosition(s) == 0 || TurnPosition(s) == |Steps| - 1
  {
  }
}
