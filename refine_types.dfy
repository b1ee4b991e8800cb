/** The request shapes of the CRUD framework that the core hands to a data
    provider: filter predicates, sorters, pagination and list parameters.
    Only the fields the core sets or reads are modelled. */
module RefineTypes {
  import opened Wrappers

  /** The comparison operators the core uses in its filter predicates. */
  datatype Operator = Eq | Contains

  /** A filter predicate `{field, operator, value}`; every value the core
      builds is a string. */
  datatype CrudFilter = CrudFilter(field: string, operator: Operator, value: string)

  datatype SortOrder = Asc | Desc

  datatype CrudSort = CrudSort(field: string, order: SortOrder)

  datatype PaginationMode = Server | Client | Off

  /** `{currentPage?, pageSize?, mode?}` */
  datatype Pagination = Pagination(currentPage: Option<nat>, pageSize: Option<nat>, mode: Option<PaginationMode>)

  /** What a list request hands to the data provider's `getList`. */
  datatype GetListParams = GetListParams(
    resource: string,
    pagination: Option<Pagination>,
    filters: seq<CrudFilter>,
    sorters: seq<CrudSort>)
}
