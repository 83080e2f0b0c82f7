/**
 * The database-neutral query vocabulary: a query result holding the
 * records it was built from, and the options of a query.
 */
module ControllerTypes {
  import opened Wrappers
  import opened Http

  /** A query result; `records` is fixed when the result is built. */
  datatype DBResult<T> = DBResult(records: seq<T>)
  {
    /** `rows()`: the entities of this result, exactly as supplied. */
    function Rows(): (rs: seq<T>)
      ensures rs == records
    {
      records
    }

    /** `count()`: the number of entities, always the length of `rows()`. */
    function Count(): (n: nat)
      ensures n == |Rows()|
    {
      |records|
    }
  }

  /** A where/having condition; `any` fields are JSON values. */
  datatype ConditionType = ConditionType(field: JsonValue, operator: JsonValue, value: JsonValue)

  datatype QueryOptions = QueryOptions(
    collection: string,
    where: Option<ConditionType>,
    groupBy: Option<string>,
    having: Option<ConditionType>)
}
