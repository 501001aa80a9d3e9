/** How check-ins end and what a turn of the agent's main loop makes of them:
    one check-in, then, while the server answers and the spool holds lines,
    more.  The supervisor's beacon counts the turns called good. */
module Turns {

  /** `Raised` is an exception that escapes the check-in. */
  datatype End = Good | Bad | Raised

  /** The ends of one turn's check-ins: the loop goes on only after good ones. */
  ghost predicate IsTurn(ends: seq<End>) {
    ends != [] && forall i | 0 <= i < |ends| - 1 :: ends[i].Good?
  }

  /** The turn's verdict.  An exception in the first check-in counts against
      it; one in a later check-in leaves the verdict of those before. */
  predicate CalledGood(ends: seq<End>) {
    ends != [] && (ends[|ends| - 1].Good? || (|ends| > 1 && ends[|ends| - 1].Raised?))
  }

  /** Exactly the turns called good: a good first check-in, and a last one that
      did not plainly fail. */
  lemma CalledGoodIff(ends: seq<End>)
    requires IsTurn(ends)
    ensures CalledGood(ends) <==> ends[0] == Good && ends[|ends| - 1] != Bad
  {
  }

  /** A turn called good began with an acknowledged check-in, and ended with
      one exactly when its last check-in did not raise. */
  lemma GoodTurn(ends: seq<End>)
    requires IsTurn(ends) && CalledGood(ends)
    ensures ends[0].Good?
    ensures ends[|ends| - 1].Good? <==> !ends[|ends| - 1].Raised?
  {
  }

  /** It need not have: a turn whose second check-in raised is called good. */
  lemma RaisingTurnIsCalledGood()
    ensures var ends := [Good, Raised]; IsTurn(ends) && CalledGood(ends) && !ends[|ends| - 1].Good?
  {
  }

  /** Consecutive good turns at the end of a process's history. */
  function Streak(turns: seq<seq<End>>): nat {
    if turns == [] || !CalledGood(turns[|turns| - 1]) then 0
    else 1 + Streak(turns[..|turns| - 1])
  }
}
