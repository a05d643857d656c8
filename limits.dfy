/** Weekly request allowances, shared by the server and the two client screens. */
module Limits {
  import Objects

  /** A weekly allowance. JavaScript's `Infinity` becomes `Unbounded`. */
  datatype Limit = Unbounded | Bounded(n: nat)

  /** `count >= limit` as JavaScript evaluates it: no count reaches `Infinity`. */
  predicate Reached(count: nat, limit: Limit)
  {
    limit.Bounded? && count >= limit.n
  }

  /**
   * What a client's `LIMITS[pkg] ?? 0` yields: an allowance (0 for a package
   * the table lacks), or the inherited member the lookup found instead.
   */
  datatype TableLimit = Allowance(limit: Limit) | InheritedValue(name: string)

  function ClientLimit(table: map<string, Limit>, package: string): (v: TableLimit)
    ensures package in table ==> v == Allowance(table[package])
    ensures package !in table && package in Objects.PrototypeMembers ==> v == InheritedValue(package)
    ensures package !in table && package !in Objects.PrototypeMembers ==> v == Allowance(Bounded(0))
  {
    match Objects.Get(table, package)
    case Own(l) => Allowance(l)
    case Inherited(name) => InheritedValue(name)
    case Undefined => Allowance(Bounded(0))
  }
}
