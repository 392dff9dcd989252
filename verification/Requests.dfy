/** The values every part of the engine passes around: one entity group as a
    caller submits it, and the reserved source tag of partition stubs. */
module Requests {

  /** Reserved `source` of the placeholder rows that stand in for an entity of
      another domain. */
  const STUB_SOURCE: string := "partition:stub"

  /** One relation of a request: the edge's own data plus its target. */
  datatype RelationInput = RelationInput(relation: string, targetName: string, targetKind: nat, source: string)

  /** One entity group: the entity, what is said about it, and who says it. */
  datatype Request = Request(
    name: string,
    kind: nat,
    observations: seq<string>,
    relations: seq<RelationInput>,
    source: string)

  /** How a store transaction ends.  The commit is not the last step that can fail:
      a batch whose index bookkeeping fails afterwards reports an error although
      it is in the database. */
  datatype Verdict = Committed | RolledBack | LateError

  /** Names are compared by `lower` and placed by `hash`.  Every result below holds
      for all choices of the two functions; they need not fold alike. */
  datatype Router = Router(lower: string -> string, hash: string -> nat) {

    /** The domain that owns `name` when there are `count` domains (at least one). */
    function DomainFor(name: string, count: nat): nat {
      hash(name) % if count == 0 then 1 else count
    }
  }
}
