/** The second encoding: a partial `instanceof` chain, shown only for Dog.

    `interactWith` tests whether the other participant is a Dog; any other
    kind reaches `assert(false)`. Java checks assertions only when the JVM
    is started with them enabled, so that branch either throws an
    `AssertionError` or falls through to the literal "IMPOSSIBLE". */
module SecondApproximation {
  import opened Animals

  /** How a call ends: a returned string, or an assertion failure. */
  datatype Outcome = Returns(value: string) | AssertionError

  const Impossible: string := "IMPOSSIBLE"

  function DogSpeak(): string {
    "Bark!"
  }

  /** `Dog.interactWith(other)`; `assertionsEnabled` is the JVM's `-ea` switch. */
  function DogInteractWith(other: Kind, assertionsEnabled: bool): (r: Outcome)
    ensures r.AssertionError? <==> other != Dog && assertionsEnabled
    ensures r.Returns? && other == Dog ==> r.value == "The first dog barks at the second dog"
    ensures r.Returns? && other != Dog ==> r.value == Impossible
  {
    if other == Dog then
      Returns("The first dog barks at the second dog")
    else if assertionsEnabled then
      AssertionError
    else
      Returns(Impossible)
  }

  /** The chain is not exhaustive: every kind other than Dog is a failure,
      reported or silent, whatever the JVM's assertion setting. */
  lemma OnlyDogHandled(other: Kind, assertionsEnabled: bool)
    ensures DogInteractWith(other, assertionsEnabled) == Returns("The first dog barks at the second dog")
            <==> other == Dog
  {
  }

  /** The chain is incomplete: some participant makes the call fail, loudly
      with assertions enabled and silently with them disabled. */
  lemma ChainIsIncomplete()
    ensures exists other :: DogInteractWith(other, true) == AssertionError
                            && DogInteractWith(other, false) == Returns(Impossible)
  {
    assert DogInteractWith(Cat, true) == AssertionError;
  }
}
