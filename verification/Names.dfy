/** Canonical domain names, as sequences of labels. */
module Names {
  type Name = seq<string>

  predicate IsSubDomain(parent: Name, child: Name) {
    |parent| <= |child| && child[|child| - |parent|..] == parent
  }

  /** The names below a parent are those that put labels in front of it. */
  lemma SubDomainsPrepend(parent: Name, child: Name)
    ensures IsSubDomain(parent, child) <==> exists labels: Name :: child == labels + parent
  {
    if IsSubDomain(parent, child) {
      assert child == child[..|child| - |parent|] + parent;
    }
  }
}
