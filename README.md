# Double dispatch over Dog, Cat and Fish

A model of the visitor-pattern tutorial's interaction example. Three kinds
of animal (Dog, Cat, Fish) each `speak`, and any animal can `interactWith`
any other, giving one of nine outcome strings. The outcome depends on the
kinds of both participants, while Java dispatches on only one of them. The
tutorial solves this three ways, and each one is modelled here:

- **Visitor encoding** (`visitor_code/`). `a.interactWith(b)` builds an
  anonymous `AnimalVisitor` holding `a`'s row of the table and calls
  `b.accept(visitor)`. `accept` forwards to the handler for `b`'s own kind.
  Module `VisitorCode`: a `Visitor` record of three strings, `Accept`,
  `VisitorFor` and `InteractWith(a, b) = Accept(b, VisitorFor(a))`.
- **Paired-method encoding** (`third_approximation/`). `a.interactWith(b)`
  calls `b.beingInteractedWith<Ka>(a)`, so the outcome of "a acts on b" is
  stored in b's class. Module `ThirdApproximation`:
  `BeingInteractedWith(receiver, initiator)` and
  `InteractWith(a, b) = BeingInteractedWith(b, a)`.
- **Partial `instanceof` encoding** (`second_approximation/Dog.java`). Only
  Dog x Dog is handled; any other argument reaches `assert(false)`. Module
  `SecondApproximation`: `DogInteractWith(other, assertionsEnabled)` returns
  an `Outcome`. The outcome is the Dog x Dog string, an `AssertionError`, or
  the fall-through string "IMPOSSIBLE".

Module `Animals` holds the closed set of kinds. A Java virtual call on an
`Animal` becomes a `match` on its `Kind`, and Dafny checks that every match
is exhaustive. This is the totality the double-dispatch encodings are built
to guarantee. Module `Agreement` proves that the encodings agree. The two
complete encodings give the same outcome on all nine ordered pairs. The
visitor and paired-method encodings give each kind the same voice, and the
`instanceof` version's Dog says "Bark!" as well. The partial encoding agrees
with them on Dog x Dog and on no other pair.

Every operation is a Dafny function with no state. Equal arguments
therefore always give equal results, which is the determinism that comes
from the stateless visitors being rebuilt on each call.

The code and the prose description disagree on one point, and the model
follows the code. The prose says a non-Dog argument to the
`instanceof` version makes an assertion fire. In Java, `assert` is checked
only when the JVM runs with assertions enabled. Otherwise
`second_approximation/Dog.java:12` returns "IMPOSSIBLE". The model takes the
assertion switch as a parameter and covers both behaviours.

## Model

| member | source | states |
|---|---|---|
| `VisitorCode.DogBehaviour` | visitor_code/Dog.java:3-22 | A dog says "Bark!"; a dog accepts any visitor by returning its dog handler; the dog's visitor gives the three dog-initiated outcomes |
| `VisitorCode.CatBehaviour` | visitor_code/Cat.java:3-22 | A cat says "Meow"; it accepts by returning the cat handler; the cat's visitor gives the three cat-initiated outcomes |
| `VisitorCode.FishBehaviour` | visitor_code/Fish.java:3-22 | A fish says "Blub"; it accepts by returning the fish handler; the fish's visitor gives the three fish-initiated outcomes |
| `VisitorCode.AcceptTabulate` | visitor_code/AnimalVisitor.java:2-6 | A visitor assembled from one handler per kind, read back through `accept`, gives each kind exactly its own handler |
| `VisitorCode.AcceptDeterminesVisitor` | visitor_code/Animal.java:5 | Two visitors that every kind accepts alike are equal: `accept` observes all three handlers |
| `VisitorCode.AcceptReachesEveryHandler` | visitor_code/AnimalVisitor.java:3-5 | Each of a visitor's three handlers is selected by `accept` for some kind, so no handler is dead |
| `VisitorCode.InteractionIdentifiesPair` | visitor_code/Fish.java:6-17 | Equal outcomes imply equal ordered pairs: the nine outcomes are pairwise different |
| `VisitorCode.InteractionIsAsymmetric` | visitor_code/Cat.java:8-10 | For any two different kinds, swapping initiator and receiver changes the outcome |
| `VisitorCode.SpeakIdentifiesKind` | visitor_code/Dog.java:3-5 | `speak` depends only on the animal's own kind, and different kinds say different things |
| `ThirdApproximation.DogBehaviour` | third_approximation/Dog.java:3-21 | A dog says "Bark!"; a dog's `interactWith` is the other's `beingInteractedWithDog`; a dog receiving a dog, cat or fish yields the three documented outcomes |
| `ThirdApproximation.CatBehaviour` | third_approximation/Cat.java:3-21 | A cat says "Meow"; its `interactWith` is the other's `beingInteractedWithCat`; a cat receiving each kind yields its documented outcome |
| `ThirdApproximation.FishBehaviour` | third_approximation/Fish.java:3-21 | A fish says "Blub"; its `interactWith` is the other's `beingInteractedWithFish`; a fish receiving each kind yields its documented outcome |
| `ThirdApproximation.BeingInteractedWithIdentifiesPair` | third_approximation/Animal.java:7-9 | The nine `beingInteractedWith*` methods all return different strings, so the outcome identifies receiver and initiator |
| `SecondApproximation.DogInteractWith` | second_approximation/Dog.java:7-14 | The call fails with an assertion error exactly when the other is not a dog and assertions are enabled; a dog argument returns the dog-barks string; any other argument returns "IMPOSSIBLE" |
| `SecondApproximation.OnlyDogHandled` | second_approximation/Dog.java:8-13 | The call returns the dog-barks string if and only if the other participant is a dog, whatever the assertion setting |
| `SecondApproximation.ChainIsIncomplete` | second_approximation/Dog.java:10-12 | Some participant makes the call fail: it raises an assertion error when assertions are enabled and returns "IMPOSSIBLE" when they are not |
| `Agreement.CompleteEncodingsAgree` | third_approximation/Dog.java:7-9 | On every ordered pair, the paired-method encoding and the visitor encoding give the same outcome |
| `Agreement.VisitorRowIsPairedColumn` | third_approximation/Cat.java:7-9 | The visitor built for initiator `a` holds exactly what each receiver's `beingInteractedWith<a>` method returns |
| `Agreement.PairedRowForcesVisitor` | visitor_code/Fish.java:7-17 | Any visitor whose `accept` reproduces an initiator's paired-method outcomes is the visitor the visitor encoding builds for it |
| `Agreement.SpeakAgrees` | third_approximation/Fish.java:3-5 | Every kind says the same thing in the visitor and paired-method encodings, and the `instanceof` version's dog agrees |
| `Agreement.PartialAgreesOnDogDog` | second_approximation/Dog.java:8-9 | On Dog x Dog the partial encoding returns the complete encodings' outcome, whatever the assertion setting |
| `Agreement.PartialDisagreesElsewhere` | second_approximation/Dog.java:10-12 | On every other pair it does not return the complete encodings' outcome, and "IMPOSSIBLE" is no entry of the complete table |

## Left out

- `visitor_code/Main.java`: the demo only prints the 3x3 traversal to the console. The nine outcomes it prints are stated by the behaviour lemmas above.
- `first_approximation/Animal.java`: an interface of overloads with no implementation. It has no behaviour, and it is rejected by the Java compiler at the call site.
- `second_approximation/Animal.java`, `Cat.java` and `Fish.java` are not part of this model. Only the Dog class of that encoding is modelled.
- Java object identity, anonymous-class allocation and the runtime `instanceof` test are not modelled. The visitors hold no state, so only the strings they return matter, and a class test becomes a comparison of kinds.
- Null participants are not modelled: `Kind` has no null value. In Java, `interactWith(null)` throws a `NullPointerException` in the visitor and paired-method versions, and reaches the `assert(false)` / "IMPOSSIBLE" branch in the `instanceof` version.
- Determinism has no separate lemma. Every operation is a pure function, so equal arguments give equal results by construction.
