/**
 * The Xunsearch search object (XSSearch) as far as ActiveQuery uses it: it records every call
 * made to it and answers search() and count() from a fixed script.
 */
module Search {
  import opened Values

  /** The field map of one result document. */
  type Row = map<string, string>

  /** One entry of search()'s result: an XSDocument, or anything else. */
  datatype Doc = Document(fields: Row) | Other

  datatype Call =
    | LimitCall(limit: Scalar, offset: Scalar)
    | SortCall(field: string, ascending: bool)
    | MultiSortCall(fields: seq<(string, bool)>)
    | QueryCall(query: string)
    | SearchCall
    | CountCall

  class Executor {
    /** Every call received so far, oldest first. */
    var trace: seq<Call>
    /** What search() returns. */
    const results: seq<Doc>
    /** What count() returns. */
    const total: int

    constructor (results: seq<Doc>, total: int)
      ensures this.results == results && this.total == total && trace == []
    {
      this.results := results;
      this.total := total;
      trace := [];
    }

    method SetLimit(limit: Scalar, offset: Scalar)
      modifies this
      ensures trace == old(trace) + [LimitCall(limit, offset)]
    {
      trace := trace + [LimitCall(limit, offset)];
    }

    method SetSort(field: string, ascending: bool)
      modifies this
      ensures trace == old(trace) + [SortCall(field, ascending)]
    {
      trace := trace + [SortCall(field, ascending)];
    }

    method SetMultiSort(fields: seq<(string, bool)>)
      modifies this
      ensures trace == old(trace) + [MultiSortCall(fields)]
    {
      trace := trace + [MultiSortCall(fields)];
    }

    method SetQuery(query: string)
      modifies this
      ensures trace == old(trace) + [QueryCall(query)]
    {
      trace := trace + [QueryCall(query)];
    }

    method Search() returns (docs: seq<Doc>)
      modifies this
      ensures docs == results
      ensures trace == old(trace) + [SearchCall]
    {
      trace := trace + [SearchCall];
      docs := results;
    }

    method Count() returns (n: int)
      modifies this
      ensures n == total
      ensures trace == old(trace) + [CountCall]
    {
      trace := trace + [CountCall];
      n := total;
    }
  }
}
