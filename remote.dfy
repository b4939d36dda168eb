/**
 * The remote database tables the mobile screens use, reduced to what the
 * screens depend on: rows with an id, an owner and a creation time, the
 * `select … eq … order("created_at", descending)` query shape, `insert`
 * and `delete … eq …`. Whether the service accepts a write is an input.
 */
module Remote {
  import opened Seqs

  datatype Row<T> = Row(id: string, userId: string, createdAt: int, fields: T)

  /** Sort key that puts the newest row first. */
  function NewestFirstKey<T>(row: Row<T>): real {
    -(row.createdAt as real)
  }

  ghost predicate NewestFirst<T>(rows: seq<Row<T>>) {
    forall i, j :: 0 <= i < j < |rows| ==> rows[i].createdAt >= rows[j].createdAt
  }

  /** The rows a `select("*")` with the filters `keep`, ordered by `created_at` descending, returns. */
  function Select<T>(rows: seq<Row<T>>, keep: Row<T> -> bool): seq<Row<T>> {
    SortBy(Filter(rows, keep), NewestFirstKey)
  }

  /** A query returns exactly the matching rows, each as often as stored, newest first. */
  lemma SelectSpec<T>(rows: seq<Row<T>>, keep: Row<T> -> bool)
    ensures NewestFirst(Select(rows, keep))
    ensures forall x :: multiset(Select(rows, keep))[x] == if keep(x) then multiset(rows)[x] else 0
  {
    var r := Select(rows, keep);
    assert SortedBy(r, NewestFirstKey);
    forall i, j | 0 <= i < j < |r|
      ensures r[i].createdAt >= r[j].createdAt
    {
      assert NewestFirstKey(r[i]) <= NewestFirstKey(r[j]);
    }
    FilterCounts(rows, keep);
  }

  /** The rows left after a `delete` whose filters select `matches`. */
  function Without<T>(rows: seq<Row<T>>, matches: Row<T> -> bool): seq<Row<T>> {
    Filter(rows, r => !matches(r))
  }

  /** A delete drops every matching row and keeps every other one as often as it was stored. */
  lemma WithoutSpec<T>(rows: seq<Row<T>>, matches: Row<T> -> bool)
    ensures forall x :: multiset(Without(rows, matches))[x] == if matches(x) then 0 else multiset(rows)[x]
    ensures (forall i :: 0 <= i < |rows| ==> !matches(rows[i])) ==> Without(rows, matches) == rows
  {
    FilterCounts(rows, r => !matches(r));
    if forall i :: 0 <= i < |rows| ==> !matches(rows[i]) {
      FilterIdentity(rows, r => !matches(r));
    }
  }

  /** A remote table whose rows the service changes on `insert` and `delete`. */
  class Table<T> {
    var rows: seq<Row<T>>

    constructor (initial: seq<Row<T>>)
      ensures rows == initial
    {
      rows := initial;
    }

    /** `insert([row])`; `accepted` is false when the service returns an error. */
    method Insert(row: Row<T>, accepted: bool) returns (ok: bool)
      modifies this
      ensures ok == accepted
      ensures rows == if ok then old(rows) + [row] else old(rows)
    {
      ok := accepted;
      if ok {
        rows := rows + [row];
      }
    }

    /** `delete().eq(…)`: removes the rows `matches` selects when the service accepts it. */
    method Delete(matches: Row<T> -> bool, accepted: bool) returns (ok: bool)
      modifies this
      ensures ok == accepted
      ensures rows == if ok then Without(old(rows), matches) else old(rows)
    {
      ok := accepted;
      if ok {
        rows := Without(rows, matches);
      }
    }
  }
}
