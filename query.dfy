/**
 * ActiveQuery's orchestration: pushing limit, sort and the compiled condition into the search
 * object, running search() or count(), and turning result documents into rows and records.
 */
module Query {
  import opened Wrappers
  import opened Values
  import opened Conditions
  import opened Paging
  import opened Search

  /** PHP's SORT_DESC. */
  const SORT_DESC: int := 3

  /** The sort direction `buildOrderBy` passes: ascending unless the direction is exactly SORT_DESC. */
  predicate Ascending(direction: Scalar)
  {
    direction != Int(SORT_DESC)
  }

  /** The `$multiSort` array: each column with its direction flag, in the orderBy order. */
  function SortFlags(columns: seq<(string, Scalar)>): (flags: seq<(string, bool)>)
    ensures |flags| == |columns|
    ensures forall k :: 0 <= k < |columns| ==> flags[k] == (columns[k].0, Ascending(columns[k].1))
  {
    if columns == [] then []
    else [(columns[0].0, Ascending(columns[0].1))] + SortFlags(columns[1..])
  }

  /** The calls `buildOrderBy` makes on the search object. */
  function SortCalls(columns: seq<(string, Scalar)>): (calls: seq<Call>)
    ensures |calls| <= 1
    ensures calls == [] <==> columns == []
    ensures |columns| == 1 ==> calls == [SortCall(columns[0].0, Ascending(columns[0].1))]
    ensures |columns| >= 2 ==> calls == [MultiSortCall(SortFlags(columns))]
  {
    if columns == [] then []
    else if |columns| == 1 then [SortCall(columns[0].0, Ascending(columns[0].1))]
    else [MultiSortCall(SortFlags(columns))]
  }

  /** Single-sort and multi-sort are never both called, and each names the columns in order. */
  lemma SortRule(columns: seq<(string, Scalar)>)
    ensures !exists i, j :: 0 <= i < |SortCalls(columns)| && 0 <= j < |SortCalls(columns)| &&
                            SortCalls(columns)[i].SortCall? && SortCalls(columns)[j].MultiSortCall?
    ensures forall i :: 0 <= i < |SortCalls(columns)| && SortCalls(columns)[i].MultiSortCall? ==>
              |columns| >= 2 &&
              forall k :: 0 <= k < |columns| ==> SortCalls(columns)[i].fields[k].0 == columns[k].0
  {
  }

  /** The rows `one` and `all` keep: the fields of each XSDocument, in result order. */
  function DocRows(docs: seq<Doc>): (rows: seq<Row>)
    ensures |rows| <= |docs|
  {
    if docs == [] then []
    else (if docs[0].Document? then [docs[0].fields] else []) + DocRows(docs[1..])
  }

  lemma {:induction false} DocRowsAppend(a: seq<Doc>, b: seq<Doc>)
    ensures DocRows(a + b) == DocRows(a) + DocRows(b)
  {
    if a == [] {
      assert a + b == b;
    } else {
      assert (a + b)[0] == a[0];
      assert (a + b)[1..] == a[1..] + b;
      DocRowsAppend(a[1..], b);
    }
  }

  /** When every result is a document, every one gives its row, in order. */
  lemma {:induction false} DocRowsAllDocuments(docs: seq<Doc>)
    requires forall k :: 0 <= k < |docs| ==> docs[k].Document?
    ensures |DocRows(docs)| == |docs|
    ensures forall k :: 0 <= k < |docs| ==> DocRows(docs)[k] == docs[k].fields
  {
    if docs != [] {
      var tail := docs[1..];
      assert forall k :: 0 <= k < |tail| ==> tail[k] == docs[k + 1];
      DocRowsAllDocuments(tail);
    }
  }

  /** Every row comes from a document of the result, and every document gives its row. */
  lemma {:induction false} DocRowsMembership(docs: seq<Doc>, row: Row)
    ensures row in DocRows(docs) <==> Document(row) in docs
  {
    if docs != [] {
      DocRowsMembership(docs[1..], row);
      assert docs == [docs[0]] + docs[1..];
    }
  }

  /** The loop of `one` and `all` that keeps the fields of XSDocument results. */
  method CollectRows(docs: seq<Doc>) returns (rows: seq<Row>)
    ensures rows == DocRows(docs)
  {
    rows := [];
    var i := 0;
    while i < |docs|
      invariant 0 <= i <= |docs|
      invariant rows == DocRows(docs[..i])
    {
      DocRowsAppend(docs[..i], [docs[i]]);
      assert docs[..i + 1] == docs[..i] + [docs[i]];
      assert [docs[i]][1..] == [];
      if docs[i].Document? {
        rows := rows + [docs[i].fields];
      }
      i := i + 1;
    }
    assert docs[..i] == docs;
  }

  /** A result of `one`/`all`: the row itself in asArray mode, a populated model otherwise. */
  datatype Found<M> = ArrayRow(row: Row) | Record(model: M)

  /** What the compiled query of a prepared request puts on the search object, followed by tail. */
  function QueryThen(q: Result<string>, tail: seq<Call>): seq<Call>
  {
    if q.Ok? then [QueryCall(q.value)] + tail else []
  }

  class ActiveQuery<M> {
    var where: Cond
    var orderBy: seq<(string, Scalar)>
    var limit: Scalar
    var offset: Scalar
    var asArray: bool
    /** `$query`: the last compiled condition; null until a request is prepared. */
    var query: Option<string>
    /** The models whose afterFind() hook has run, in order. */
    var afterFound: seq<M>
    /** What `getSearch()` returns: the search object of the model class's own database. */
    const search: Executor
    /** What `$this->buildInCondition` resolves to. */
    const inBuilder: InBuilder
    /** How createModels populates a model from one row. */
    const populate: Row -> M

    constructor (search: Executor, inBuilder: InBuilder, populate: Row -> M)
      ensures this.search == search && this.inBuilder == inBuilder && this.populate == populate
      ensures where == Atom(Null) && orderBy == [] && limit == Null && offset == Null
      ensures !asArray && query == None && afterFound == []
    {
      this.search := search;
      this.inBuilder := inBuilder;
      this.populate := populate;
      where := Atom(Null);
      orderBy := [];
      limit := Null;
      offset := Null;
      asArray := false;
      query := None;
      afterFound := [];
    }

    /** The search object a request uses: the one given, or by default that of `getDb()`. */
    function Target(db: Executor?): Executor
    {
      if db == null then search else db
    }

    function Hydrate(row: Row): Found<M>
      reads this
    {
      if asArray then ArrayRow(row) else Record(populate(row))
    }

    function HydrateAll(rows: seq<Row>): (models: seq<Found<M>>)
      reads this
      ensures |models| == |rows|
    {
      seq(|rows|, k requires 0 <= k < |rows| reads this => Hydrate(rows[k]))
    }

    /** The models afterFind() runs on when the rows are hydrated: none in asArray mode. */
    function Hooked(rows: seq<Row>): seq<M>
      reads this
    {
      if asArray then [] else seq(|rows|, k requires 0 <= k < |rows| => populate(rows[k]))
    }

    /** `buildOrderBy`: sorts `getSearch()`, with one single-sort or one multi-sort call. */
    method BuildOrderBy(columns: seq<(string, Scalar)>)
      modifies search
      ensures search.trace == old(search.trace) + SortCalls(columns)
    {
      if columns == [] {
        return;
      }
      if |columns| == 1 {
        search.SetSort(columns[0].0, columns[0].1 != Int(SORT_DESC));
      } else {
        var multiSort: seq<(string, bool)> := [];
        var i := 0;
        while i < |columns|
          invariant 0 <= i <= |columns|
          invariant |multiSort| == i
          invariant forall k :: 0 <= k < i ==> multiSort[k] == (columns[k].0, Ascending(columns[k].1))
        {
          multiSort := multiSort + [(columns[i].0, columns[i].1 != Int(SORT_DESC))];
          i := i + 1;
        }
        assert multiSort == SortFlags(columns);
        search.SetMultiSort(multiSort);
      }
    }

    /** `buildLimit`: sets the limit on `getSearch()` only when it is effective, with a zero offset if the offset is not. */
    method BuildLimit(limit: Scalar, offset: Scalar)
      modifies search
      ensures search.trace == old(search.trace) +
                (if HasLimit(limit) then [LimitCall(limit, EffectiveOffset(offset))] else [])
    {
      var offset' := offset;
      if !HasOffset(offset') {
        offset' := Int(0);
      }
      if HasLimit(limit) {
        search.SetLimit(limit, offset');
      }
    }

    /**
     * `setCondition`: the raw limit and offset go to the given search object, the sort to
     * `getSearch()`, and the compiled condition to both `$query` and the given search object.
     * A failing compile stops it before setQuery.
     */
    method SetCondition(s: Executor) returns (q: Result<string>)
      modifies this`query, s, search
      ensures q == BuildWhere(where, inBuilder)
      ensures query == (if q.Ok? then Some(q.value) else old(query))
      ensures s == search ==>
                s.trace == old(s.trace) + [LimitCall(limit, offset)] + SortCalls(orderBy) + QueryThen(q, [])
      ensures s != search ==>
                s.trace == old(s.trace) + [LimitCall(limit, offset)] + QueryThen(q, []) &&
                search.trace == old(search.trace) + SortCalls(orderBy)
    {
      s.SetLimit(limit, offset);
      BuildOrderBy(orderBy);
      q := BuildWhere(where, inBuilder);
      if q.Ok? {
        query := Some(q.value);
        s.SetQuery(q.value);
      }
    }

    /** createModels followed by the afterFind() loop of `one` and `all`. */
    method CreateModels(rows: seq<Row>) returns (models: seq<Found<M>>)
      modifies this`afterFound
      ensures models == HydrateAll(rows)
      ensures afterFound == old(afterFound) + Hooked(rows)
    {
      models := HydrateAll(rows);
      if !asArray {
        var i := 0;
        while i < |models|
          invariant 0 <= i <= |models|
          invariant afterFound == old(afterFound) + seq(i, k requires 0 <= k < i => populate(rows[k]))
        {
          assert models[i] == Record(populate(rows[i]));
          afterFound := afterFound + [models[i].model];
          i := i + 1;
          assert seq(i, k requires 0 <= k < i => populate(rows[k])) ==
                 seq(i - 1, k requires 0 <= k < i - 1 => populate(rows[k])) + [populate(rows[i - 1])];
        }
      }
    }

    /**
     * What `one` and `all` share: the request prepared on s, `search()` called, and the rows
     * of the documents found kept. A failing compile stops it before the search.
     */
    method Fetch(s: Executor) returns (q: Result<string>, rows: seq<Row>)
      modifies this`query, s, search
      ensures q == BuildWhere(where, inBuilder)
      ensures query == (if q.Ok? then Some(q.value) else old(query))
      ensures q.Ok? ==> rows == DocRows(s.results)
      ensures s == search ==>
                s.trace == old(s.trace) + [LimitCall(limit, offset)] + SortCalls(orderBy) +
                           QueryThen(q, [SearchCall])
      ensures s != search ==>
                s.trace == old(s.trace) + [LimitCall(limit, offset)] + QueryThen(q, [SearchCall]) &&
                search.trace == old(search.trace) + SortCalls(orderBy)
    {
      q := SetCondition(s);
      rows := [];
      if q.Ok? {
        var docs := s.Search();
        rows := CollectRows(docs);
      }
    }

    /**
     * `one`: limit pinned to 1 (and left so), the request prepared, and the first hydrated row
     * returned, or None when no document matched. Every row is hydrated and hooked.
     */
    method One(db: Executor?) returns (r: Result<Option<Found<M>>>)
      modifies this`limit, this`query, this`afterFound, search, db
      ensures limit == Int(1)
      ensures BuildWhere(where, inBuilder).Err? ==> r == Err(BuildWhere(where, inBuilder).error)
      ensures BuildWhere(where, inBuilder).Ok? ==>
                r == Ok(if DocRows(Target(db).results) == [] then None
                        else Some(Hydrate(DocRows(Target(db).results)[0])))
      ensures afterFound == old(afterFound) +
                (if r.Ok? then Hooked(DocRows(Target(db).results)) else [])
      ensures query == (if r.Ok? then Some(BuildWhere(where, inBuilder).value) else old(query))
      ensures Target(db) == search ==>
                search.trace == old(search.trace) + [LimitCall(Int(1), offset)] + SortCalls(orderBy) +
                                QueryThen(BuildWhere(where, inBuilder), [SearchCall])
      ensures Target(db) != search ==>
                Target(db).trace == old(Target(db).trace) + [LimitCall(Int(1), offset)] +
                                    QueryThen(BuildWhere(where, inBuilder), [SearchCall]) &&
                search.trace == old(search.trace) + SortCalls(orderBy)
    {
      var s := if db == null then search else db;
      limit := Int(1);
      var q, rows := Fetch(s);
      if q.Err? {
        return Err(q.error);
      }
      if rows != [] {
        var models := CreateModels(rows);
        r := Ok(Some(models[0]));
      } else {
        r := Ok(None);
        assert Hooked(rows) == [];
      }
    }

    /** `all`: the request prepared with the configured limit, and every hydrated row in result order. */
    method All(db: Executor?) returns (r: Result<seq<Found<M>>>)
      modifies this`query, this`afterFound, search, db
      ensures BuildWhere(where, inBuilder).Err? ==> r == Err(BuildWhere(where, inBuilder).error)
      ensures BuildWhere(where, inBuilder).Ok? ==> r == Ok(HydrateAll(DocRows(Target(db).results)))
      ensures afterFound == old(afterFound) +
                (if r.Ok? then Hooked(DocRows(Target(db).results)) else [])
      ensures query == (if r.Ok? then Some(BuildWhere(where, inBuilder).value) else old(query))
      ensures Target(db) == search ==>
                search.trace == old(search.trace) + [LimitCall(limit, offset)] + SortCalls(orderBy) +
                                QueryThen(BuildWhere(where, inBuilder), [SearchCall])
      ensures Target(db) != search ==>
                Target(db).trace == old(Target(db).trace) + [LimitCall(limit, offset)] +
                                    QueryThen(BuildWhere(where, inBuilder), [SearchCall]) &&
                search.trace == old(search.trace) + SortCalls(orderBy)
    {
      var s := if db == null then search else db;
      var q, rows := Fetch(s);
      if q.Err? {
        return Err(q.error);
      }
      if rows != [] {
        var models := CreateModels(rows);
        r := Ok(models);
      } else {
        r := Ok([]);
        assert HydrateAll(rows) == [] && Hooked(rows) == [];
      }
    }

    /** `count`: the request prepared, then the search object's own count; nothing is searched or hydrated. */
    method Count(q: string, db: Executor?) returns (r: Result<int>)
      modifies this`query, search, db
      ensures BuildWhere(where, inBuilder).Err? ==> r == Err(BuildWhere(where, inBuilder).error)
      ensures BuildWhere(where, inBuilder).Ok? ==> r == Ok(Target(db).total)
      ensures query == (if r.Ok? then Some(BuildWhere(where, inBuilder).value) else old(query))
      ensures Target(db) == search ==>
                search.trace == old(search.trace) + [LimitCall(limit, offset)] + SortCalls(orderBy) +
                                QueryThen(BuildWhere(where, inBuilder), [CountCall])
      ensures Target(db) != search ==>
                Target(db).trace == old(Target(db).trace) + [LimitCall(limit, offset)] +
                                    QueryThen(BuildWhere(where, inBuilder), [CountCall]) &&
                search.trace == old(search.trace) + SortCalls(orderBy)
    {
      var s := if db == null then search else db;
      var compiled := SetCondition(s);
      if compiled.Err? {
        return Err(compiled.error);
      }
      var n := s.Count();
      r := Ok(n);
    }

    /** `exists` is not supported. */
    method Exists(db: Executor?) returns (r: Result<bool>)
      ensures r == Err(NotSupported)
    {
      r := Err(NotSupported);
    }

    /** `findFor` is not supported. */
    method FindFor(name: string, model: M) returns (r: Result<seq<Found<M>>>)
      ensures r == Err(NotSupported)
    {
      r := Err(NotSupported);
    }

    /** `via` is not supported. */
    method Via(relationName: string) returns (r: Result<()>)
      ensures r == Err(NotSupported)
    {
      r := Err(NotSupported);
    }
  }
}
