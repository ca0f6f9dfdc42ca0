/**
 * The member-list operations the project and team forms share: the `member._id === id`
 * test their add handlers use, and the remove handler
 * `members.filter(member => member._id !== id)`.
 */
module Members {
  import opened Lists
  import opened Entities

  function HasId(id: string): User -> bool { (u: User) => u.id == id }
  function IdIsNot(id: string): User -> bool { (u: User) => u.id != id }

  /** Removing by id: every member with the id goes, the rest keep their order. */
  function RemoveMember(members: seq<User>, id: string): (r: seq<User>)
    ensures forall u :: u in r <==> u in members && u.id != id
    ensures forall u :: multiset(r)[u] == if u.id == id then 0 else multiset(members)[u]
  {
    var r := Filter(members, IdIsNot(id));
    forall u ensures multiset(r)[u] == if u.id == id then 0 else multiset(members)[u] {
      FilterCount(members, IdIsNot(id), u);
    }
    r
  }

  /**
   * Removal keeps the order of the remaining members: it distributes over concatenation,
   * and a single member stays exactly when its id differs.
   */
  lemma RemoveMemberKeepsOrder(a: seq<User>, b: seq<User>, u: User, id: string)
    ensures RemoveMember(a + b, id) == RemoveMember(a, id) + RemoveMember(b, id)
    ensures RemoveMember([u], id) == if u.id == id then [] else [u]
  {
    FilterAppend(a, b, IdIsNot(id));
  }
}
