/** The mock data provider. It keeps no state: `getList` looks only at the resource name and serves the static
    subjects table for "subjects" and an empty page for everything else;
    every other operation fails. */
module DataProvider {
  import opened Wrappers
  import opened RefineTypes
  import opened Constants

  /** `{data, total}` handed back to the framework by `getList`. */
  datatype ListResponse = ListResponse(data: seq<Subject>, total: int)

  /** The record fields a create or update request carries. */
  type Variables = map<string, string>

  /** The error every unsupported operation raises. */
  const NOT_IN_MOCK := "This function is not present in mock"

  const SUBJECTS_RESOURCE := "subjects"

  /** `getList`: the subjects table, whole and in order, for "subjects";
      an empty page for any other resource. The total always counts the
      records returned, and pagination, filters and sorters are ignored. */
  function GetList(params: GetListParams): (r: ListResponse)
    ensures r.total == |r.data|
    ensures params.resource == SUBJECTS_RESOURCE ==> r.data == SUBJECTS && r.total == 3
    ensures params.resource != SUBJECTS_RESOURCE ==> r.data == [] && r.total == 0
  {
    if params.resource != SUBJECTS_RESOURCE then ListResponse([], 0)
    else ListResponse(SUBJECTS, |SUBJECTS|)
  }

  /** Two list requests for the same resource get the same answer, whatever
      their pagination, filters and sorters: the provider reads nothing else
      and keeps no state between calls. */
  lemma GetListDependsOnlyOnResource(p: GetListParams, q: GetListParams)
    requires p.resource == q.resource
    ensures GetList(p) == GetList(q)
  {
  }

  /** Every record the provider lists is a row of the subjects table, the
      page never exceeds the table, and a non-empty page means the subjects
      resource was asked for. */
  lemma GetListServesOnlySubjects(p: GetListParams)
    ensures forall s :: s in GetList(p).data ==> s in SUBJECTS
    ensures 0 <= GetList(p).total <= |SUBJECTS|
    ensures GetList(p).total > 0 <==> p.resource == SUBJECTS_RESOURCE
  {
  }

  /** `getOne`: always fails, never yields a record. */
  function GetOne(resource: string, id: string): (r: Result<Subject, string>)
    ensures r.Failure? && r.error == NOT_IN_MOCK
  {
    Failure(NOT_IN_MOCK)
  }

  /** `create`: always fails; nothing is created. */
  function Create(resource: string, variables: Variables): (r: Result<Subject, string>)
    ensures r.Failure? && r.error == NOT_IN_MOCK
  {
    Failure(NOT_IN_MOCK)
  }

  /** `update`: always fails; nothing is updated. */
  function Update(resource: string, id: string, variables: Variables): (r: Result<Subject, string>)
    ensures r.Failure? && r.error == NOT_IN_MOCK
  {
    Failure(NOT_IN_MOCK)
  }

  /** `deleteOne`: always fails; nothing is deleted. */
  function DeleteOne(resource: string, id: string): (r: Result<Subject, string>)
    ensures r.Failure? && r.error == NOT_IN_MOCK
  {
    Failure(NOT_IN_MOCK)
  }

  /** `getApiUrl`: the mock has no backend, so its URL is empty. */
  function GetApiUrl(): (r: string)
    ensures |r| == 0
  {
    ""
  }
}
