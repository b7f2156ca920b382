/** The final encoding: double dispatch through a visitor.

    `a.interactWith(b)` allocates a visitor whose three handlers form the row
    of the interaction table for `a`'s kind, then calls `b.accept(visitor)`,
    which forwards to the one handler for `b`'s own kind. The visitors are
    stateless, so a visitor is modelled by the three strings it returns. */
module VisitorCode {
  import opened Animals

  /** One handler per kind: the three results of an `AnimalVisitor`. */
  datatype Visitor = Visitor(visitDog: string, visitCat: string, visitFish: string)

  function Speak(k: Kind): string {
    match k
    case Dog => "Bark!"
    case Cat => "Meow"
    case Fish => "Blub"
  }

  /** `accept`: each class forwards to the visitor's handler for its own kind. */
  function Accept(k: Kind, v: Visitor): string {
    match k
    case Dog => v.visitDog
    case Cat => v.visitCat
    case Fish => v.visitFish
  }

  /** The anonymous visitor that `interactWith` builds for the initiator's kind. */
  function VisitorFor(initiator: Kind): Visitor {
    match initiator
    case Dog =>
      Visitor("The first dog barks at the second dog",
              "The dog chases after the cat.",
              "The dog stares at the fish.")
    case Cat =>
      Visitor("The cat runs away from the dog",
              "The cats stare at each other",
              "The cat jumps towards the fish's bowl.")
    case Fish =>
      Visitor("The fish swims oblivious to the dog",
              "The fish swims away from the cat's direction",
              "The fish swim around each other.")
  }

  /** First dispatch picks the visitor (by `a`), second picks the handler (by `b`). */
  function InteractWith(a: Kind, b: Kind): string {
    Accept(b, VisitorFor(a))
  }

  /** A visitor assembled from one handler per kind. */
  function Tabulate(handler: Kind -> string): Visitor {
    Visitor(handler(Dog), handler(Cat), handler(Fish))
  }

  /** Behaviour of class Dog. */
  lemma DogBehaviour()
    ensures Speak(Dog) == "Bark!"
    ensures forall v :: Accept(Dog, v) == v.visitDog
    ensures InteractWith(Dog, Dog) == "The first dog barks at the second dog"
    ensures InteractWith(Dog, Cat) == "The dog chases after the cat."
    ensures InteractWith(Dog, Fish) == "The dog stares at the fish."
  {
  }

  /** Behaviour of class Cat. */
  lemma CatBehaviour()
    ensures Speak(Cat) == "Meow"
    ensures forall v :: Accept(Cat, v) == v.visitCat
    ensures InteractWith(Cat, Dog) == "The cat runs away from the dog"
    ensures InteractWith(Cat, Cat) == "The cats stare at each other"
    ensures InteractWith(Cat, Fish) == "The cat jumps towards the fish's bowl."
  {
  }

  /** Behaviour of class Fish. */
  lemma FishBehaviour()
    ensures Speak(Fish) == "Blub"
    ensures forall v :: Accept(Fish, v) == v.visitFish
    ensures InteractWith(Fish, Dog) == "The fish swims oblivious to the dog"
    ensures InteractWith(Fish, Cat) == "The fish swims away from the cat's direction"
    ensures InteractWith(Fish, Fish) == "The fish swim around each other."
  {
  }

  /** `accept` hands every kind's handler to exactly that kind: reading a
      tabulated visitor back through `accept` gives the handlers it was built from. */
  lemma AcceptTabulate(handler: Kind -> string, k: Kind)
    ensures Accept(k, Tabulate(handler)) == handler(k)
  {
  }

  /** Conversely, `accept` observes the whole visitor: two visitors that every
      kind accepts alike are the same visitor. */
  lemma AcceptDeterminesVisitor(v: Visitor, w: Visitor)
    requires forall k :: Accept(k, v) == Accept(k, w)
    ensures v == w
  {
    assert Accept(Dog, v) == Accept(Dog, w);
    assert Accept(Cat, v) == Accept(Cat, w);
    assert Accept(Fish, v) == Accept(Fish, w);
  }

  /** No handler is dead: each of a visitor's handlers is the one `accept`
      selects for some kind. */
  lemma AcceptReachesEveryHandler(v: Visitor)
    ensures exists k :: Accept(k, v) == v.visitDog
    ensures exists k :: Accept(k, v) == v.visitCat
    ensures exists k :: Accept(k, v) == v.visitFish
  {
    assert Accept(Dog, v) == v.visitDog;
    assert Accept(Cat, v) == v.visitCat;
    assert Accept(Fish, v) == v.visitFish;
  }

  /** Each of the nine ordered pairs has its own outcome: the outcome string
      identifies both the initiator and the other participant. */
  lemma InteractionIdentifiesPair(a: Kind, b: Kind, c: Kind, d: Kind)
    requires InteractWith(a, b) == InteractWith(c, d)
    ensures a == c && b == d
  {
  }

  /** Interaction is not symmetric: for any two different kinds, the outcome
      depends on which one initiates. */
  lemma InteractionIsAsymmetric(a: Kind, b: Kind)
    requires a != b
    ensures InteractWith(a, b) != InteractWith(b, a)
  {
  }

  /** Different kinds speak differently, and what a kind says depends on nothing else. */
  lemma SpeakIdentifiesKind(a: Kind, b: Kind)
    requires Speak(a) == Speak(b)
    ensures a == b
  {
  }
}
