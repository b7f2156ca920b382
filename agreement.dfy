/** What the encodings have in common: the visitor encoding and the
    paired-method encoding compute the same nine-entry interaction table,
    every encoding gives each kind the same voice, and the partial
    `instanceof` encoding agrees with both on the one pair it handles. */
module Agreement {
  import opened Animals
  import VisitorCode
  import ThirdApproximation
  import SecondApproximation

  /** The two complete encodings agree on every ordered pair. */
  lemma CompleteEncodingsAgree(a: Kind, b: Kind)
    ensures VisitorCode.InteractWith(a, b) == ThirdApproximation.InteractWith(a, b)
  {
  }

  /** Stated per row: the visitor built for `a` holds exactly the strings that
      the three receivers' `beingInteractedWith<a>` methods return. */
  lemma VisitorRowIsPairedColumn(a: Kind)
    ensures VisitorCode.VisitorFor(a)
            == VisitorCode.Tabulate(b => ThirdApproximation.BeingInteractedWith(b, a))
  {
  }

  /** Refactoring the paired-method encoding into visitors leaves no choice:
      a visitor whose `accept` reproduces initiator `a`'s outcomes in the
      paired-method encoding is the visitor that the visitor encoding builds for `a`. */
  lemma PairedRowForcesVisitor(a: Kind, v: VisitorCode.Visitor)
    requires forall b :: VisitorCode.Accept(b, v) == ThirdApproximation.InteractWith(a, b)
    ensures v == VisitorCode.VisitorFor(a)
  {
    forall b
      ensures VisitorCode.Accept(b, v) == VisitorCode.Accept(b, VisitorCode.VisitorFor(a))
    {
      CompleteEncodingsAgree(a, b);
    }
    VisitorCode.AcceptDeterminesVisitor(v, VisitorCode.VisitorFor(a));
  }

  lemma SpeakAgrees(k: Kind)
    ensures VisitorCode.Speak(k) == ThirdApproximation.Speak(k)
    ensures k == Dog ==> SecondApproximation.DogSpeak() == VisitorCode.Speak(k)
  {
  }

  /** On Dog x Dog the partial encoding returns the complete encodings' answer,
      whether or not assertions are enabled. */
  lemma PartialAgreesOnDogDog(assertionsEnabled: bool)
    ensures SecondApproximation.DogInteractWith(Dog, assertionsEnabled)
            == SecondApproximation.Returns(VisitorCode.InteractWith(Dog, Dog))
    ensures SecondApproximation.DogInteractWith(Dog, assertionsEnabled)
            == SecondApproximation.Returns(ThirdApproximation.InteractWith(Dog, Dog))
  {
  }

  /** On every other pair it disagrees: with assertions off it returns
      "IMPOSSIBLE", which is no entry of the complete table. */
  lemma PartialDisagreesElsewhere(other: Kind, assertionsEnabled: bool)
    requires other != Dog
    ensures SecondApproximation.DogInteractWith(other, assertionsEnabled)
            != SecondApproximation.Returns(VisitorCode.InteractWith(Dog, other))
    ensures forall a, b :: VisitorCode.InteractWith(a, b) != SecondApproximation.Impossible
  {
  }
}
