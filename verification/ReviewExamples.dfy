/** One review in particular: its law is valid, its candidate is clean, and it
    has both a run to an accepted seal and a run to a refused one. */
module ReviewExamples {
  import opened Base
  import opened Ordering
  import opened ReviewLaw
  import opened ReviewStore
  import opened ReviewMachine
  import opened Seal
  import K = KernelRuntime
  import A = KernelApply
  import P = KernelProgram
  import Reach = ReviewReach

  const PLAIN_POLICY := Policy("prompt", "schema", 1, 1, [1, 1, 1, 1], [true, false, false, false])

  const PLAIN_REVIEW := Review("patch is correct", [])

  /** Every candidate decodes to a review without findings. */
  function PlainLaw(contract: string): Law {
    Law(PLAIN_POLICY, (text: string) => Some(PLAIN_REVIEW), ReviewRuntime(contract), "review", "main")
  }

  const PLAIN_WORLD := World("base", "head", "tree", None, [])

  const OWNER := K.AuthorityReceipt("owner", "someone", "signature", [SUBMIT, HUMAN, RECOVERY], 1, 0)

  const PLAIN_MEANS := Reach.Means(PLAIN_WORLD, Bytes("{}", ""), [OWNER], A.Clock(1, 1), 1)

  lemma PlainPolicyValid()
    ensures ValidPolicy(PLAIN_POLICY) && P.SemanticId("review")
  {
    assert PLAIN_POLICY.blocking[0];
  }

  lemma LawIsValid(law: Law)
    requires ValidPolicy(law.policy) && P.SemanticId(law.instance) && FollowsTable(law.runtime)
    ensures ValidLaw(law)
  {
  }

  lemma PlainLawValid(contract: string)
    requires |contract| == 64
    ensures ValidLaw(PlainLaw(contract))
  {
    PlainPolicyValid();
    ReviewFollowsTable(contract);
    LawIsValid(PlainLaw(contract));
  }

  lemma OwnerPresentable()
    ensures K.Presentable([OWNER], 1)
  {
    HumanNames();
  }

  lemma OwnerEntitled()
    ensures Reach.Entitled([OWNER], A.Clock(1, 1))
  {
    OwnerPresentable();
    assert Sort(K.ById, [OWNER]) == [OWNER];
    assert OWNER in [OWNER];
  }

  /** A review without findings is clean wherever it does not reject. */
  lemma NoFindingsClean(law: Law, w: World, b: Bytes)
    requires w.dirty.None? && law.read(b.compact) == Some(PLAIN_REVIEW)
    ensures Reach.Clean(law, w, b)
  {
    assert PLAIN_REVIEW.verdict[9] == 'c' && INCORRECT[9] == 'i';
  }

  lemma PlainMeansSuffice(law: Law)
    requires law.read(PLAIN_MEANS.bytes.compact) == Some(PLAIN_REVIEW)
    ensures Reach.Suffice(law, PLAIN_MEANS)
  {
    OwnerEntitled();
    NoFindingsClean(law, PLAIN_WORLD, PLAIN_MEANS.bytes);
  }

  /** Both kinds of seal exist, under every contract. */
  lemma BothSealsExist(contract: string) returns (accepted: Machine, refused: Machine)
    requires |contract| == 64
    ensures ValidLaw(PlainLaw(contract))
    ensures Reach.Reachable(PlainLaw(contract), accepted) && Reach.Reachable(PlainLaw(contract), refused)
    ensures var s := SealedIn(PlainLaw(contract), accepted); s.Some? && Accepted(s.value)
    ensures var s := SealedIn(PlainLaw(contract), refused); s.Some? && !Accepted(s.value)
  {
    PlainLawValid(contract);
    PlainMeansSuffice(PlainLaw(contract));
    accepted, refused := BothSeals(PlainLaw(contract), PLAIN_WORLD, PLAIN_MEANS);
  }

  /** Whatever the law, as long as the means suffice. */
  lemma BothSeals(law: Law, w: World, x: Reach.Means) returns (accepted: Machine, refused: Machine)
    requires ValidLaw(law) && Reach.Suffice(law, x)
    ensures Reach.Reachable(law, accepted) && Reach.Reachable(law, refused)
    ensures SealedIn(law, accepted).Some? && Accepted(SealedIn(law, accepted).value)
    ensures SealedIn(law, refused).Some? && !Accepted(SealedIn(law, refused).value)
  {
    var events := AcceptedSealReached(law, w, x);
    accepted := Run(law, w, events);
    refused := RefusedSealReached(law, w, x);
  }
}
