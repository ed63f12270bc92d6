/** Looks at a changing system: equal marks enclose an unchanged part. */
module Steadiness {

  /** Looks that stand at one mark enclose looks at one and the same part of the system. */
  ghost predicate SteadyBy<S(!new), D(!new), P(!new)>(views: nat -> S, standing: (S, D) -> bool, part: S -> P) {
    forall i: nat, j: nat, k: nat, mark |
      i <= j <= k && standing(views(i), mark) && standing(views(k), mark) ::
      part(views(j)) == part(views(i))
  }

  lemma SteadyAt<S(!new), D(!new), P(!new)>(views: nat -> S, standing: (S, D) -> bool, part: S -> P,
                                          i: nat, j: nat, k: nat, mark: D)
    requires SteadyBy(views, standing, part)
    requires i <= j <= k && standing(views(i), mark) && standing(views(k), mark)
    ensures part(views(j)) == part(views(i))
  {
  }

  /** Later looks at a steady system are steady. */
  lemma ShiftIsSteady<S(!new), D(!new), P(!new)>(views: nat -> S, later: nat -> S, standing: (S, D) -> bool, part: S -> P,
                                               skip: nat)
    requires SteadyBy(views, standing, part)
    requires forall k: nat :: later(k) == views(k + skip)
    ensures SteadyBy(later, standing, part)
  {
    forall i: nat, j: nat, k: nat, mark | i <= j <= k && standing(later(i), mark) && standing(later(k), mark)
      ensures part(later(j)) == part(later(i))
    {
      SteadyAt(views, standing, part, i + skip, j + skip, k + skip, mark);
    }
  }
}
