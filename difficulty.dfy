/**
 * The three difficulty tiers shared by the quiz client and the question server,
 * as an ordered enumeration with saturating one-step moves.
 */
module DifficultyTier {

  datatype Difficulty = Easy | Medium | Hard

  /** Position of a tier on the ladder: easy < medium < hard. */
  function Rank(d: Difficulty): (r: nat)
    ensures r <= 2
    ensures d == Easy <==> r == 0
    ensures d == Hard <==> r == 2
  {
    match d
    case Easy => 0
    case Medium => 1
    case Hard => 2
  }

  /** The tier chosen after a promotion (script.js:101-102): one step up, hard stays hard. */
  function Promote(d: Difficulty): (r: Difficulty)
    ensures Rank(r) == if Rank(d) == 2 then 2 else Rank(d) + 1
  {
    match d
    case Easy => Medium
    case Medium => Hard
    case Hard => Hard
  }

  /** The tier chosen after a wrong answer (script.js:107-108): one step down, easy stays easy. */
  function Demote(d: Difficulty): (r: Difficulty)
    ensures Rank(r) == if Rank(d) == 0 then 0 else Rank(d) - 1
  {
    match d
    case Easy => Easy
    case Medium => Easy
    case Hard => Medium
  }

  /** A tier is determined by its rank. */
  lemma RankInjective(a: Difficulty, b: Difficulty)
    ensures Rank(a) == Rank(b) ==> a == b
  {
  }
}
