/** The two repository queries the handlers use, as pure functions over the
    `users` table given as a sequence in table order. */
module UserRepo {
  import opened Wrappers
  import opened Domain

  /** The query `select u from User u where u.id <> ?1`: every user whose id
      differs from `id`, in table order. */
  function FindAll(table: seq<User>, id: int): (r: seq<User>)
    ensures |r| <= |table|
    ensures forall u :: u in r <==> u in table && u.id != id
  {
    if table == [] then []
    else if table[0].id != id then [table[0]] + FindAll(table[1..], id)
    else FindAll(table[1..], id)
  }

  /** Filtering a table split in two is filtering each part and joining
      them: the query keeps the relative order of the rows it returns. */
  lemma {:induction false} FindAllAppend(a: seq<User>, b: seq<User>, id: int)
    ensures FindAll(a + b, id) == FindAll(a, id) + FindAll(b, id)
  {
    if a == [] {
      assert a + b == b;
    } else {
      assert (a + b)[1..] == a[1..] + b;
      FindAllAppend(a[1..], b, id);
    }
  }

  /** A single row is returned exactly when its id differs. Together with
      FindAllAppend this pins the query down row by row. */
  lemma FindAllSingle(u: User, id: int)
    ensures FindAll([u], id) == (if u.id != id then [u] else [])
  {
  }

  /** A table with no row for `id` comes back whole and in order. */
  lemma {:induction false} FindAllNoMatch(table: seq<User>, id: int)
    requires forall i :: 0 <= i < |table| ==> table[i].id != id
    ensures FindAll(table, id) == table
  {
    if table != [] {
      FindAllNoMatch(table[1..], id);
    }
  }

  /** Ids are a primary key: no two rows share one. */
  predicate UniqueIds(table: seq<User>)
  {
    forall i, j :: 0 <= i < j < |table| ==> table[i].id != table[j].id
  }

  /** `JpaRepository.findById`: the row with that id, if there is one. */
  function FindById(table: seq<User>, id: int): (r: Option<User>)
    ensures r.Some? ==> r.value in table && r.value.id == id
    ensures r.None? <==> forall u :: u in table ==> u.id != id
  {
    if table == [] then None
    else if table[0].id == id then Some(table[0])
    else FindById(table[1..], id)
  }

  /** With unique ids, findById returns the one row that has the id. */
  lemma FindByIdUnique(table: seq<User>, k: nat)
    requires UniqueIds(table)
    requires k < |table|
    ensures FindById(table, table[k].id) == Some(table[k])
  {
  }
}
