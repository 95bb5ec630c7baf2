/** The approved substitution of the shared supply policy (inventorySupply.js). */
module SupplyPolicy {

  const LOWER := "소니 GM 70-200mm"
  const UPPER := "소니 GM 70-200mm II"

  /** The models a request for `name` may be served from, in the order they are tried. */
  function Candidates(name: string): seq<string> {
    if name == LOWER then [name, UPPER] else [name]
  }

  predicate Upgrade(from: string, to: string) {
    from == LOWER && to == UPPER
  }
}
