/**
 * The letter grading of the student performance predictor: a predicted exam
 * score is mapped to one of five letter grades by fixed thresholds
 * (90, 80, 70 and 60), tested from the best grade downwards.
 */
module Grading {

  /** The five letter grades the grading function can return. */
  datatype Letter = A | B | C | D | F

  /** Position of a grade in the order F < D < C < B < A. */
  function Rank(g: Letter): nat {
    match g
    case F => 0
    case D => 1
    case C => 2
    case B => 3
    case A => 4
  }

  /** The one-character string the page displays for a grade. */
  function Symbol(g: Letter): string {
    match g
    case A => "A"
    case B => "B"
    case C => "C"
    case D => "D"
    case F => "F"
  }

  /** The lowest score that earns a passing grade; F has no threshold. */
  function Threshold(g: Letter): int
    requires g != F
  {
    match g
    case A => 90
    case B => 80
    case C => 70
    case D => 60
  }

  /** A score earns a grade when it reaches that grade's threshold (everyone earns F). */
  predicate Earns(score: int, g: Letter) {
    g == F || score >= Threshold(g)
  }

  /**
   * The grading function: each grade owns a half-open band of scores, the bands do not
   * overlap and together they cover every integer.
   */
  function Grade(score: int): (g: Letter)
    ensures g == A <==> 90 <= score
    ensures g == B <==> 80 <= score < 90
    ensures g == C <==> 70 <= score < 80
    ensures g == D <==> 60 <= score < 70
    ensures g == F <==> score < 60
  {
    if score >= 90 then A
    else if score >= 80 then B
    else if score >= 70 then C
    else if score >= 60 then D
    else F
  }

  /** The string the page's `grade` function returns for a score. */
  function GradeText(score: int): (r: string)
    ensures r in {"A", "B", "C", "D", "F"}
    ensures r == "A" <==> 90 <= score
    ensures r == "B" <==> 80 <= score < 90
    ensures r == "C" <==> 70 <= score < 80
    ensures r == "D" <==> 60 <= score < 70
    ensures r == "F" <==> score < 60
  {
    Symbol(Grade(score))
  }

  /** Distinct grades are displayed as distinct strings, so the string result determines the grade. */
  lemma SymbolInjective(g1: Letter, g2: Letter)
    ensures Symbol(g1) == Symbol(g2) <==> g1 == g2
  {
  }

  /**
   * Reference characterisation: the grade of a score is the best grade the
   * score earns. The score earns its own grade and no grade ranked above it.
   */
  lemma GradeIsBestEarned(score: int, g: Letter)
    ensures Earns(score, Grade(score))
    ensures Earns(score, g) ==> Rank(g) <= Rank(Grade(score))
  {
  }

  /** Every threshold is exact: the threshold itself gets the grade, one below it does not. */
  lemma GradeAtThresholds(g: Letter)
    requires g != F
    ensures Grade(Threshold(g)) == g
    ensures Rank(Grade(Threshold(g) - 1)) == Rank(g) - 1
  {
  }

  /** The boundary values the grading function is expected to honour. */
  lemma GradeBoundaries()
    ensures GradeText(100) == "A" && GradeText(90) == "A"
    ensures GradeText(89) == "B" && GradeText(80) == "B"
    ensures GradeText(79) == "C" && GradeText(70) == "C"
    ensures GradeText(69) == "D" && GradeText(60) == "D"
    ensures GradeText(59) == "F" && GradeText(0) == "F"
  {
  }

  /** A higher score never gets a worse grade. */
  lemma GradeMonotone(s1: int, s2: int)
    requires s1 <= s2
    ensures Rank(Grade(s1)) <= Rank(Grade(s2))
  {
  }
}
