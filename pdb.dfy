/** samePDBWith: whether a pod disruption budget has the same specification
    as the one the cluster has cached, and why not. */
module PodDisruptionBudgets {
  import opened Objects

  /** The reason samePDBWith gives for a mismatch. */
  const PdbMismatchReason := "new service spec doesn't match the current one"

  /** samePDBWith(pdb), with `current` standing for c.PodDisruptionBudget.
      The metadata (here the name) takes no part in the comparison. */
  function SamePdbWith(pdb: Pdb, current: Pdb): (r: (bool, string))
    ensures r.0 <==> pdb.spec == current.spec
    ensures r.0 <==> r.1 == ""
    ensures !r.0 ==> r.1 == PdbMismatchReason
  {
    var same := pdb.spec == current.spec;
    (same, if same then "" else PdbMismatchReason)
  }

  /** The comparison is an equivalence on budgets that ignores their names:
      every budget matches itself, the comparison is symmetric and
      transitive, and renaming either budget changes nothing. */
  lemma SamePdbWithIsSpecEquivalence(p: Pdb, q: Pdb, o: Pdb, name: string)
    ensures SamePdbWith(p, p).0
    ensures SamePdbWith(p, q) == SamePdbWith(q, p)
    ensures SamePdbWith(p, q).0 && SamePdbWith(q, o).0 ==> SamePdbWith(p, o).0
    ensures SamePdbWith(p.(name := name), q) == SamePdbWith(p, q)
    ensures SamePdbWith(p, q.(name := name)) == SamePdbWith(p, q)
  {
  }
}
