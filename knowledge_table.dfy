/** The `knowledge` table of server/database.js as an in-memory table: the rows
    in rowid order, the AUTOINCREMENT sequence (the largest id ever handed out)
    and a logical clock that stands for CURRENT_TIMESTAMP. */
module KnowledgeTable {
  import opened Wrappers
  import opened SqlLike

  /** The caller's `data` object: the six content columns as it hands them to
      INSERT or UPDATE (an absent property is bound as NULL), and its own `id`
      property, if any, which the statements ignore. */
  datatype Fields = Fields(
    id: Option<int>,
    titulo: Option<string>,
    contenido: Option<string>,
    categoria: Option<string>,
    pclave: Option<string>,
    urls: Option<string>,
    imgs: Option<string>)

  /** One stored row; `contenido` is NOT NULL. */
  datatype Row = Row(
    id: int,
    titulo: Option<string>,
    contenido: string,
    categoria: Option<string>,
    pclave: Option<string>,
    urls: Option<string>,
    imgs: Option<string>,
    createdAt: nat,
    updatedAt: nat)

  /** The only failure these statements can meet here: NOT NULL on `contenido`. */
  datatype DbError = NotNullConstraint

  /** `{ id: this.lastID, ...data }`. */
  datatype Inserted = Inserted(id: int, data: Fields)

  /** The `id` of `{ id: given, ...data }`: a caller's own `id` property is spread
      after the given one and wins. */
  function SpreadId(given: int, data: Fields): (r: int)
    ensures data.id.None? ==> r == given
    ensures data.id.Some? ==> r == data.id.value
  {
    data.id.GetOr(given)
  }

  /** `{ id, changes: this.changes, ...data }`. */
  datatype Updated = Updated(id: int, changes: nat, data: Fields)

  /** `{ id, changes: this.changes }`. */
  datatype Deleted = Deleted(id: int, changes: nat)

  /** Ordered by `created_at` descending; rows with equal timestamps may come in any order. */
  predicate NewestFirst(s: seq<Row>) {
    forall i, j :: 0 <= i < j < |s| ==> s[i].createdAt >= s[j].createdAt
  }

  function Reverse(s: seq<Row>): (r: seq<Row>)
    ensures |r| == |s|
    ensures forall i :: 0 <= i < |s| ==> r[i] == s[|s| - 1 - i]
  {
    if s == [] then [] else Reverse(s[1..]) + [s[0]]
  }

  /** Reversing keeps every row as often as it was there. */
  lemma {:induction false} ReverseMultiset(s: seq<Row>)
    ensures multiset(Reverse(s)) == multiset(s)
  {
    if s != [] {
      ReverseMultiset(s[1..]);
      assert s == [s[0]] + s[1..];
    }
  }

  /** The rows of `s` that satisfy `keep`, in the order of `s`. */
  function Filter(s: seq<Row>, keep: Row -> bool): (r: seq<Row>)
    ensures forall x :: x in r <==> x in s && keep(x)
    ensures forall x :: multiset(r)[x] == if keep(x) then multiset(s)[x] else 0
    ensures |r| <= |s|
  {
    if s == [] then []
    else
      var rest := Filter(s[1..], keep);
      assert s == [s[0]] + s[1..];
      if keep(s[0]) then [s[0]] + rest else rest
  }

  /** Filtering two parts is filtering each, in order. */
  lemma {:induction false} FilterConcat(a: seq<Row>, b: seq<Row>, keep: Row -> bool)
    ensures Filter(a + b, keep) == Filter(a, keep) + Filter(b, keep)
  {
    if a == [] {
      assert a + b == b;
    } else {
      assert (a + b)[0] == a[0] && (a + b)[1..] == a[1..] + b;
      FilterConcat(a[1..], b, keep);
    }
  }

  /** Filtering keeps newest-first order. */
  lemma {:induction false} FilterNewestFirst(s: seq<Row>, keep: Row -> bool)
    requires NewestFirst(s)
    ensures NewestFirst(Filter(s, keep))
  {
    if s != [] {
      var rest := Filter(s[1..], keep);
      FilterNewestFirst(s[1..], keep);
      if keep(s[0]) {
        forall x | x in rest ensures s[0].createdAt >= x.createdAt {
          var j :| 0 <= j < |s[1..]| && s[1..][j] == x;
          assert s[j + 1] == x;
        }
        ConsNewestFirst(s[0], rest);
      }
    }
  }

  /** A row no newer than the head keeps newest-first order when put in front. */
  lemma ConsNewestFirst(x: Row, rest: seq<Row>)
    requires NewestFirst(rest)
    requires forall y :: y in rest ==> x.createdAt >= y.createdAt
    ensures NewestFirst([x] + rest)
  {
    var s := [x] + rest;
    forall i, j | 0 <= i < j < |s| ensures s[i].createdAt >= s[j].createdAt {
      if i == 0 {
        assert s[j] == rest[j - 1];
      } else {
        assert s[i] == rest[i - 1] && s[j] == rest[j - 1];
      }
    }
  }

  /** The index of the row with that id, if any. */
  function FindRow(s: seq<Row>, id: int): (r: Option<nat>)
    ensures r.Some? ==> r.value < |s| && s[r.value].id == id
    ensures r.None? ==> forall i :: 0 <= i < |s| ==> s[i].id != id
  {
    if s == [] then None
    else if s[0].id == id then Some(0)
    else match FindRow(s[1..], id)
      case None => None
      case Some(k) => Some(k + 1)
  }

  /** With ids unique, the row found for an id is the one that carries it. */
  lemma {:induction false} FindUniqueRow(s: seq<Row>, k: nat)
    requires k < |s|
    requires forall i :: 0 <= i < |s| && i != k ==> s[i].id != s[k].id
    ensures FindRow(s, s[k].id) == Some(k)
  {
    if k > 0 {
      assert s[1..][k - 1] == s[k];
      FindUniqueRow(s[1..], k - 1);
    }
  }

  /** Removing the row at `k` from rows with increasing ids leaves exactly the
      rows with another id. */
  lemma RemoveAtMembers(s: seq<Row>, k: nat)
    requires k < |s|
    requires RowidOrdered(s)
    ensures forall x :: x in s[..k] + s[k + 1..] <==> x in s && x.id != s[k].id
  {
    var t := s[..k] + s[k + 1..];
    forall x ensures x in t <==> x in s && x.id != s[k].id {
      if x in s && x.id != s[k].id {
        var i :| 0 <= i < |s| && s[i] == x;
        if i < k { assert t[i] == x; } else { assert t[i - 1] == x; }
      }
      if x in t {
        var i :| 0 <= i < |t| && t[i] == x;
        if i < k { assert s[i] == x; } else { assert s[i + 1] == x; }
      }
    }
  }

  /** Ids and creation times both strictly increase along the rowid order. */
  predicate RowidOrdered(s: seq<Row>) {
    forall i, j :: 0 <= i < j < |s| ==> s[i].id < s[j].id && s[i].createdAt < s[j].createdAt
  }

  lemma RemoveAtOrdered(s: seq<Row>, k: nat)
    requires k < |s| && RowidOrdered(s)
    ensures RowidOrdered(s[..k] + s[k + 1..])
  {
    var t := s[..k] + s[k + 1..];
    forall i, j | 0 <= i < j < |t| ensures t[i].id < t[j].id && t[i].createdAt < t[j].createdAt {
      var i' := if i < k then i else i + 1;
      var j' := if j < k then j else j + 1;
      assert t[i] == s[i'] && t[j] == s[j'];
    }
  }

  /** `field LIKE pattern`; NULL never matches. */
  predicate LikeField(field: Option<string>, pattern: string) {
    field.Some? && Like(pattern, field.value)
  }

  /** The WHERE clause of `searchKnowledge`. An empty term, whose pattern is `%%`,
      matches every row through its non-NULL `contenido`. */
  predicate SearchMatch(row: Row, term: string)
    ensures term == "" ==> SearchMatch(row, term)
  {
    PercentMatchesAll(row.contenido);
    var pattern := "%" + term + "%";
    assert term == "" ==> pattern[0] == '%' && pattern[1..] == "%";
    LikeField(row.titulo, pattern) || Like(pattern, row.contenido) || LikeField(row.pclave, pattern)
  }

  // ---------------------------------------------------------------------------
  // Categories: SELECT DISTINCT categoria ... ORDER BY categoria (BINARY collation,
  // which on UTF-8 text is code-point order).

  /** Strict lexicographic order of code points. */
  predicate Before(a: string, b: string) {
    if a == [] then b != []
    else b != [] && (a[0] < b[0] || (a[0] == b[0] && Before(a[1..], b[1..])))
  }

  lemma {:induction false} BeforeIrreflexive(a: string)
    ensures !Before(a, a)
  {
    if a != [] {
      BeforeIrreflexive(a[1..]);
    }
  }

  lemma {:induction false} BeforeTransitive(a: string, b: string, c: string)
    requires Before(a, b) && Before(b, c)
    ensures Before(a, c)
  {
    if a != [] && a[0] == b[0] && b[0] == c[0] {
      BeforeTransitive(a[1..], b[1..], c[1..]);
    }
  }

  lemma {:induction false} BeforeTotal(a: string, b: string)
    requires a != b
    ensures Before(a, b) || Before(b, a)
  {
    if a != [] && b != [] && a[0] == b[0] {
      assert a == [a[0]] + a[1..] && b == [b[0]] + b[1..];
      BeforeTotal(a[1..], b[1..]);
    }
  }

  predicate StrictlyAscending(s: seq<string>) {
    forall i, j :: 0 <= i < j < |s| ==> Before(s[i], s[j])
  }

  /** Adds `c` to an ascending list of distinct strings, keeping it so. */
  function InsertCategory(c: string, s: seq<string>): (r: seq<string>)
    requires StrictlyAscending(s)
    ensures StrictlyAscending(r)
    ensures forall x :: x in r <==> x in s || x == c
  {
    if s == [] then [c]
    else if c == s[0] then s
    else if Before(c, s[0]) then
      assert forall j :: 0 < j < |s| ==> Before(c, s[j]) by {
        forall j | 0 < j < |s| ensures Before(c, s[j]) { BeforeTransitive(c, s[0], s[j]); }
      }
      [c] + s
    else
      BeforeTotal(c, s[0]);
      var rest := InsertCategory(c, s[1..]);
      assert forall x :: x in rest ==> Before(s[0], x);
      [s[0]] + rest
  }

  predicate HasCategory(rows: seq<Row>, c: string) {
    exists row :: row in rows && row.categoria == Some(c)
  }

  /** Each non-NULL category exactly once, in ascending order. */
  function Categories(rows: seq<Row>): (r: seq<string>)
    ensures StrictlyAscending(r)
    ensures forall c :: c in r <==> HasCategory(rows, c)
  {
    if rows == [] then []
    else
      var rest := Categories(rows[1..]);
      assert forall c :: HasCategory(rows, c) <==> HasCategory(rows[1..], c) || rows[0].categoria == Some(c) by {
        forall c ensures HasCategory(rows, c) ==> HasCategory(rows[1..], c) || rows[0].categoria == Some(c) {
          if HasCategory(rows, c) {
            var row :| row in rows && row.categoria == Some(c);
            if row != rows[0] {
              assert row in rows[1..];
            }
          }
        }
      }
      match rows[0].categoria
      case None => rest
      case Some(c) => InsertCategory(c, rest)
  }

  /** A strictly ascending list holds each of its values once. */
  lemma StrictlyAscendingDistinct(s: seq<string>)
    requires StrictlyAscending(s)
    ensures forall i, j :: 0 <= i < j < |s| ==> s[i] != s[j]
  {
    forall i, j | 0 <= i < j < |s| ensures s[i] != s[j] {
      BeforeIrreflexive(s[i]);
    }
  }

  // ---------------------------------------------------------------------------

  class Database {
    /** The rows in rowid order. */
    var rows: seq<Row>
    /** The AUTOINCREMENT sequence value: the largest id ever assigned. */
    var lastId: nat
    /** Logical time; every successful write advances it. */
    var clock: nat

    ghost predicate Valid()
      reads this
    {
      && (forall i :: 0 <= i < |rows| ==> 0 < rows[i].id <= lastId)
      && RowidOrdered(rows)
      && (forall i :: 0 <= i < |rows| ==> rows[i].createdAt <= rows[i].updatedAt <= clock)
    }

    /** An empty table (CREATE TABLE on a new database file). */
    constructor ()
      ensures Valid()
      ensures rows == [] && lastId == 0 && clock == 0
    {
      rows, lastId, clock := [], 0, 0;
    }

    /** `addKnowledge`: INSERT with a fresh AUTOINCREMENT id. A NULL `contenido`
        violates NOT NULL; the statement is rolled back, so no id is consumed. */
    method Add(data: Fields) returns (r: Result<Inserted, DbError>)
      requires Valid()
      modifies this
      ensures Valid()
      ensures data.contenido.None? ==>
        r == Failure(NotNullConstraint) && rows == old(rows) && lastId == old(lastId) && clock == old(clock)
      ensures data.contenido.Some? ==>
        && r == Success(Inserted(SpreadId(old(lastId) + 1, data), data))
        && lastId == old(lastId) + 1 && clock == old(clock) + 1
        && rows == old(rows) + [Row(lastId, data.titulo, data.contenido.value, data.categoria,
                                    data.pclave, data.urls, data.imgs, clock, clock)]
      ensures data.contenido.Some? ==> forall i :: 0 <= i < |old(rows)| ==> old(rows)[i].id < lastId
      ensures data.contenido.Some? ==> GetById(lastId) == Some(rows[|rows| - 1])
    {
      if data.contenido.None? {
        return Failure(NotNullConstraint);
      }
      lastId := lastId + 1;
      clock := clock + 1;
      var row := Row(lastId, data.titulo, data.contenido.value, data.categoria,
                     data.pclave, data.urls, data.imgs, clock, clock);
      rows := rows + [row];
      r := Success(Inserted(SpreadId(lastId, data), data));
      FindUniqueRow(rows, |rows| - 1);
    }

    /** `getAllKnowledge`: every row, newest first. */
    function GetAll(): (r: seq<Row>)
      requires Valid()
      reads this
      ensures |r| == |rows|
      ensures forall x :: x in r <==> x in rows
      ensures multiset(r) == multiset(rows)
      ensures NewestFirst(r)
    {
      var r := Reverse(rows);
      ReverseMultiset(rows);
      assert forall x :: x in r <==> multiset(r)[x] > 0;
      r
    }

    /** `getKnowledgeById`: the row with that id, or absent (`undefined`). */
    function GetById(id: int): (r: Option<Row>)
      reads this
      ensures r.Some? ==> r.value in rows && r.value.id == id
      ensures r.None? <==> forall x :: x in rows ==> x.id != id
    {
      match FindRow(rows, id)
      case None => None
      case Some(k) => Some(rows[k])
    }

    /** `getKnowledgeByCategory`: exactly the rows of that category, newest first. */
    function GetByCategory(categoria: string): (r: seq<Row>)
      requires Valid()
      reads this
      ensures forall x :: x in r <==> x in rows && x.categoria == Some(categoria)
      ensures forall x :: multiset(r)[x] == if x.categoria == Some(categoria) then multiset(rows)[x] else 0
      ensures NewestFirst(r)
    {
      var keep := (row: Row) => row.categoria == Some(categoria);
      FilterNewestFirst(GetAll(), keep);
      Filter(GetAll(), keep)
    }

    /** `searchKnowledge`: the rows whose `titulo`, `contenido` or `pclave` is LIKE
        `%term%`, newest first. */
    function Search(term: string): (r: seq<Row>)
      requires Valid()
      reads this
      ensures forall x :: x in r <==> x in rows && SearchMatch(x, term)
      ensures forall x :: multiset(r)[x] == if SearchMatch(x, term) then multiset(rows)[x] else 0
      ensures NewestFirst(r)
    {
      var keep := (row: Row) => SearchMatch(row, term);
      FilterNewestFirst(GetAll(), keep);
      Filter(GetAll(), keep)
    }

    /** `getCategories`. */
    function GetCategories(): (r: seq<string>)
      reads this
      ensures StrictlyAscending(r)
      ensures forall c :: c in r <==> HasCategory(rows, c)
    {
      Categories(rows)
    }

    /** `updateKnowledge`: replaces all six content columns (absent ones become NULL)
        and refreshes `updated_at` of the row with that id. No such row: zero changes,
        and the NOT NULL check never fires. */
    method Update(id: int, data: Fields) returns (r: Result<Updated, DbError>)
      requires Valid()
      modifies this
      ensures Valid()
      ensures lastId == old(lastId)
      ensures FindRow(old(rows), id).None? ==>
        r == Success(Updated(SpreadId(id, data), 0, data)) && rows == old(rows) && clock == old(clock)
      ensures FindRow(old(rows), id).Some? && data.contenido.None? ==>
        r == Failure(NotNullConstraint) && rows == old(rows) && clock == old(clock)
      ensures FindRow(old(rows), id).Some? && data.contenido.Some? ==>
        var k := FindRow(old(rows), id).value;
        var was := old(rows)[k];
        && r == Success(Updated(SpreadId(id, data), 1, data))
        && clock == old(clock) + 1
        && rows == old(rows)[k := Row(id, data.titulo, data.contenido.value, data.categoria,
                                      data.pclave, data.urls, data.imgs, was.createdAt, clock)]
    {
      var k := FindRow(rows, id);
      if k.None? {
        return Success(Updated(SpreadId(id, data), 0, data));
      }
      if data.contenido.None? {
        return Failure(NotNullConstraint);
      }
      clock := clock + 1;
      var was := rows[k.value];
      rows := rows[k.value := Row(id, data.titulo, data.contenido.value, data.categoria,
                                  data.pclave, data.urls, data.imgs, was.createdAt, clock)];
      r := Success(Updated(SpreadId(id, data), 1, data));
    }

    /** `deleteKnowledge`: removes the row with that id, if any. */
    method Delete(id: int) returns (r: Deleted)
      requires Valid()
      modifies this
      ensures Valid()
      ensures lastId == old(lastId) && clock == old(clock)
      ensures FindRow(old(rows), id).None? ==> r == Deleted(id, 0) && rows == old(rows)
      ensures FindRow(old(rows), id).Some? ==>
        var k := FindRow(old(rows), id).value;
        r == Deleted(id, 1) && rows == old(rows)[..k] + old(rows)[k + 1..]
      ensures forall x :: x in rows <==> x in old(rows) && x.id != id
    {
      var k := FindRow(rows, id);
      if k.None? {
        return Deleted(id, 0);
      }
      RemoveAtMembers(rows, k.value);
      RemoveAtOrdered(rows, k.value);
      rows := rows[..k.value] + rows[k.value + 1..];
      r := Deleted(id, 1);
    }
  }

  /** Searching for a term without `%` or `_` finds exactly the rows in which one of
      the three columns contains the term, ignoring the case of ASCII letters. */
  lemma SearchIsSubstringSearch(row: Row, term: string)
    requires NoWildcards(term)
    ensures SearchMatch(row, term) <==>
      || (row.titulo.Some? && ContainsFolded(row.titulo.value, term))
      || ContainsFolded(row.contenido, term)
      || (row.pclave.Some? && ContainsFolded(row.pclave.value, term))
  {
    SubstringPattern(term, row.contenido);
    if row.titulo.Some? { SubstringPattern(term, row.titulo.value); }
    if row.pclave.Some? { SubstringPattern(term, row.pclave.value); }
  }
}
