/** The third encoding: double dispatch through paired methods.

    `a.interactWith(b)` calls `b.beingInteractedWith<Ka>(a)`, so the string
    for "a acts on b" is stored in b's class, one method per possible
    initiator. Swapping the roles is the whole second dispatch. */
module ThirdApproximation {
  import opened Animals

  function Speak(k: Kind): string {
    match k
    case Dog => "Bark!"
    case Cat => "Meow"
    case Fish => "Blub"
  }

  /** `receiver.beingInteractedWith<initiator>(...)`: the outer match is the
      receiver's class, the inner one picks which of its three methods was called. */
  function BeingInteractedWith(receiver: Kind, initiator: Kind): string {
    match receiver
    case Dog =>
      (match initiator
       case Dog => "The first dog barks at the second dog"
       case Cat => "The cat runs away from the dog"
       case Fish => "The fish swims oblivious to the dog")
    case Cat =>
      (match initiator
       case Dog => "The dog chases after the cat."
       case Cat => "The cats stare at each other"
       case Fish => "The fish swims away from the cat's direction")
    case Fish =>
      (match initiator
       case Dog => "The dog stares at the fish."
       case Cat => "The cat jumps towards the fish's bowl."
       case Fish => "The fish swim around each other.")
  }

  function InteractWith(a: Kind, b: Kind): string {
    BeingInteractedWith(b, a)
  }

  /** Behaviour of class Dog: its `interactWith` hands itself to the other
      participant, and its three `beingInteractedWith*` methods hold the
      outcomes of every kind acting on a dog. */
  lemma DogBehaviour()
    ensures Speak(Dog) == "Bark!"
    ensures forall other :: InteractWith(Dog, other) == BeingInteractedWith(other, Dog)
    ensures InteractWith(Dog, Dog) == "The first dog barks at the second dog"
    ensures InteractWith(Cat, Dog) == "The cat runs away from the dog"
    ensures InteractWith(Fish, Dog) == "The fish swims oblivious to the dog"
  {
  }

  /** Behaviour of class Cat. */
  lemma CatBehaviour()
    ensures Speak(Cat) == "Meow"
    ensures forall other :: InteractWith(Cat, other) == BeingInteractedWith(other, Cat)
    ensures InteractWith(Dog, Cat) == "The dog chases after the cat."
    ensures InteractWith(Cat, Cat) == "The cats stare at each other"
    ensures InteractWith(Fish, Cat) == "The fish swims away from the cat's direction"
  {
  }

  /** Behaviour of class Fish. */
  lemma FishBehaviour()
    ensures Speak(Fish) == "Blub"
    ensures forall other :: InteractWith(Fish, other) == BeingInteractedWith(other, Fish)
    ensures InteractWith(Dog, Fish) == "The dog stares at the fish."
    ensures InteractWith(Cat, Fish) == "The cat jumps towards the fish's bowl."
    ensures InteractWith(Fish, Fish) == "The fish swim around each other."
  {
  }

  /** Every receiver gives every initiator its own outcome: no two of a class's
      `beingInteractedWith*` methods share a string, and no two classes do. */
  lemma BeingInteractedWithIdentifiesPair(r1: Kind, i1: Kind, r2: Kind, i2: Kind)
    requires BeingInteractedWith(r1, i1) == BeingInteractedWith(r2, i2)
    ensures r1 == r2 && i1 == i2
  {
  }
}
