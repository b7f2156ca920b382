/** The closed set of participant kinds shared by every encoding of the
    animal-interaction example. Each Java class (Dog, Cat, Fish) becomes one
    constructor; a virtual call on an `Animal` becomes a `match` on its kind. */
module Animals {

  datatype Kind = Dog | Cat | Fish
}
