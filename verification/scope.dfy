/**
 * The query scope the presenter pipeline shapes. Only what the pipeline
 * observes is kept: the rows the scope selects and the SQL clauses recorded
 * on it, in the order they were applied. `where(:id => ids)` acts on the rows
 * as well as being recorded; `limit`, `offset`, `uniq` and `order` are only
 * recorded, and the rows stay those the scope selected before them.
 */
module Scopes {
  import opened RubyCore
  import opened Values

  /** A clause added to the scope's SQL; only `WhereIdIn` also acts on the rows. */
  datatype Clause =
    | LimitTo(n: int)
    | OffsetBy(n: int)
    | Distinct
    | OrderBy(sql: string)
    | WhereIdIn(ids: seq<string>)

  datatype Scope = Scope(rows: seq<Model>, clauses: seq<Clause>)

  /** `scope.limit(n)`. */
  function WithLimit(s: Scope, n: int): Scope {
    s.(clauses := s.clauses + [LimitTo(n)])
  }

  /** `scope.offset(n)`. */
  function WithOffset(s: Scope, n: int): Scope {
    s.(clauses := s.clauses + [OffsetBy(n)])
  }

  /** `scope.uniq`. */
  function WithDistinct(s: Scope): Scope {
    s.(clauses := s.clauses + [Distinct])
  }

  /** `scope.order(sql)`. */
  function WithOrder(s: Scope, sql: string): Scope {
    s.(clauses := s.clauses + [OrderBy(sql)])
  }

  /** An id parameter as the database compares it with an integer column: its leading integer. */
  predicate IdMatches(m: Model, ids: seq<string>) {
    exists i :: 0 <= i < |ids| && ToI(ids[i]) == m.id
  }

  /**
   * `scope.where(:id => ids)`: the rows whose id is among `ids`, each as
   * often as before, in their order, with the condition recorded.
   */
  function WhereIds(s: Scope, ids: seq<string>): (r: Scope)
    ensures |r.rows| <= |s.rows|
    ensures forall m :: m in r.rows <==> m in s.rows && IdMatches(m, ids)
    ensures r.clauses == s.clauses + [WhereIdIn(ids)]
  {
    Scope(RowsWithIds(s.rows, ids), s.clauses + [WhereIdIn(ids)])
  }

  /** The rows a `where(:id => ids)` keeps: a matching row as often as it occurs, any other row never. */
  function RowsWithIds(rows: seq<Model>, ids: seq<string>): (r: seq<Model>)
    ensures |r| <= |rows|
    ensures forall m :: m in r <==> m in rows && IdMatches(m, ids)
  {
    if rows == [] then []
    else (if IdMatches(rows[0], ids) then [rows[0]] else []) + RowsWithIds(rows[1..], ids)
  }

  /** `where` keeps a matching row as often as it occurs, and drops every other row. */
  lemma {:induction false} RowsWithIdsMultiplicity(rows: seq<Model>, ids: seq<string>, m: Model)
    ensures multiset(RowsWithIds(rows, ids))[m] == if IdMatches(m, ids) then multiset(rows)[m] else 0
  {
    if rows != [] {
      assert rows == [rows[0]] + rows[1..];
      RowsWithIdsMultiplicity(rows[1..], ids, m);
    }
  }

  /** Filtering keeps the order of the rows: it distributes over concatenation. */
  lemma {:induction false} RowsWithIdsAppend(a: seq<Model>, b: seq<Model>, ids: seq<string>)
    ensures RowsWithIds(a + b, ids) == RowsWithIds(a, ids) + RowsWithIds(b, ids)
    decreases |a|
  {
    if a == [] {
      assert a + b == b;
    } else {
      assert (a + b)[0] == a[0] && (a + b)[1..] == a[1..] + b;
      RowsWithIdsAppend(a[1..], b, ids);
    }
  }

  /** A single row is kept exactly when one of the ids denotes its id. */
  lemma RowsWithIdsSingle(m: Model, ids: seq<string>)
    ensures RowsWithIds([m], ids) == if IdMatches(m, ids) then [m] else []
  {
    assert [m][1..] == [];
  }

  /** `scope.count`. */
  function Count(s: Scope): nat {
    |s.rows|
  }

  /** `scope.select("distinct id").count`: how many different ids the rows carry. */
  function DistinctIdCount(s: Scope): nat {
    |set m | m in s.rows :: m.id|
  }
}
