/** The data side of the classes list page: the three filter inputs (search
    text, chosen subject, chosen teacher) become the table's permanent filter
    predicates; two lookup requests fetch the subjects and the teachers for
    the choice lists; the table itself pages on the server, ten at a time,
    newest first. Rendering and input handling are not modelled. */
module ClassesList {
  import opened Wrappers
  import opened RefineTypes
  import Constants
  import DataProvider

  /** The choice value meaning "no restriction" in both selects. */
  const ALL := "all"

  const SUBJECT_FIELD := "subject"
  const TEACHER_FIELD := "teacher"
  const NAME_FIELD := "name"
  const ROLE_FIELD := "role"

  /** The page's filter inputs. */
  datatype FilterState = FilterState(searchQuery: string, selectedSubject: string, selectedTeacher: string)

  /** Nothing typed, nothing chosen. */
  const INITIAL_STATE := FilterState("", ALL, ALL)

  // -------------------------------------------------- filter derivation

  /** No subject predicate while "all" is chosen; otherwise exactly one,
      requiring the subject to equal the choice. */
  function SubjectFilters(selectedSubject: string): (r: seq<CrudFilter>)
    ensures r == [] <==> selectedSubject == ALL
    ensures r != [] ==> r == [CrudFilter(SUBJECT_FIELD, Eq, selectedSubject)]
  {
    if selectedSubject == ALL then [] else [CrudFilter(SUBJECT_FIELD, Eq, selectedSubject)]
  }

  /** No teacher predicate while "all" is chosen; otherwise exactly one,
      requiring the teacher to equal the choice. */
  function TeacherFilters(selectedTeacher: string): (r: seq<CrudFilter>)
    ensures r == [] <==> selectedTeacher == ALL
    ensures r != [] ==> r == [CrudFilter(TEACHER_FIELD, Eq, selectedTeacher)]
  {
    if selectedTeacher == ALL then [] else [CrudFilter(TEACHER_FIELD, Eq, selectedTeacher)]
  }

  /** No search predicate while the search text is empty; otherwise exactly
      one, requiring the class name to contain the text. */
  function SearchFilters(searchQuery: string): (r: seq<CrudFilter>)
    ensures r == [] <==> searchQuery == ""
    ensures r != [] ==> r == [CrudFilter(NAME_FIELD, Contains, searchQuery)]
  {
    if searchQuery != "" then [CrudFilter(NAME_FIELD, Contains, searchQuery)] else []
  }

  /** The table's permanent filters: subject, then teacher, then search.
      Each predicate carries the input it came from unchanged. */
  function PermanentFilters(s: FilterState): (r: seq<CrudFilter>)
    ensures |r| <= 3
    ensures forall f :: f in r ==>
      || f == CrudFilter(SUBJECT_FIELD, Eq, s.selectedSubject)
      || f == CrudFilter(TEACHER_FIELD, Eq, s.selectedTeacher)
      || f == CrudFilter(NAME_FIELD, Contains, s.searchQuery)
  {
    SubjectFilters(s.selectedSubject) + TeacherFilters(s.selectedTeacher) + SearchFilters(s.searchQuery)
  }

  /** The position a field takes in the permanent filter list. */
  function FieldRank(field: string): nat {
    if field == SUBJECT_FIELD then 0
    else if field == TEACHER_FIELD then 1
    else if field == NAME_FIELD then 2
    else 3
  }

  /** Subject predicates come before teacher predicates, which come before
      search predicates; in particular no field appears twice. */
  lemma PermanentFiltersOrdered(s: FilterState)
    ensures forall i, j :: 0 <= i < j < |PermanentFilters(s)| ==>
      FieldRank(PermanentFilters(s)[i].field) < FieldRank(PermanentFilters(s)[j].field)
    ensures forall i, j :: 0 <= i < j < |PermanentFilters(s)| ==>
      PermanentFilters(s)[i].field != PermanentFilters(s)[j].field
  {
  }

  /** How many inputs are away from their default. */
  function ActiveCount(s: FilterState): (n: nat)
    ensures n <= 3
  {
    (if s.selectedSubject != ALL then 1 else 0)
    + (if s.selectedTeacher != ALL then 1 else 0)
    + (if s.searchQuery != "" then 1 else 0)
  }

  /** One permanent filter per input away from its default, so none at all
      exactly in the initial state. */
  lemma PermanentFilterCount(s: FilterState)
    ensures |PermanentFilters(s)| == ActiveCount(s)
    ensures PermanentFilters(s) == [] <==> s == INITIAL_STATE
  {
  }

  // ------------------------------------------- recovering the inputs

  /** The value of the first predicate on `field`, if any. */
  function Lookup(fs: seq<CrudFilter>, field: string): (r: Option<string>)
    ensures r.None? <==> forall i :: 0 <= i < |fs| ==> fs[i].field != field
    ensures r.Some? ==> exists i :: 0 <= i < |fs| && fs[i].field == field && fs[i].value == r.value
                          && forall k :: 0 <= k < i ==> fs[k].field != field
  {
    if fs == [] then None
    else if fs[0].field == field then Some(fs[0].value)
    else Lookup(fs[1..], field)
  }

  /** Reads the filter inputs back from a permanent filter list: an absent
      predicate means the input is at its default. */
  function DecodeState(fs: seq<CrudFilter>): (s: FilterState)
  {
    FilterState(
      Lookup(fs, NAME_FIELD).GetOr(""),
      Lookup(fs, SUBJECT_FIELD).GetOr(ALL),
      Lookup(fs, TEACHER_FIELD).GetOr(ALL))
  }

  /** The permanent filters lose no information about the inputs. */
  lemma DecodeStateRoundTrip(s: FilterState)
    ensures DecodeState(PermanentFilters(s)) == s
  {
    var sf, tf, qf := SubjectFilters(s.selectedSubject), TeacherFilters(s.selectedTeacher), SearchFilters(s.searchQuery);
    assert PermanentFilters(s) == sf + (tf + qf) == (sf + tf) + qf;
    LookupFront(sf, tf + qf, SUBJECT_FIELD);
    LookupFront(tf, qf, TEACHER_FIELD);
    LookupSkip(sf, tf + qf, TEACHER_FIELD);
    LookupSkip(sf + tf, qf, NAME_FIELD);
  }

  /** A lookup skips a prefix that holds no predicate on the field. */
  lemma {:induction false} LookupSkip(p: seq<CrudFilter>, q: seq<CrudFilter>, field: string)
    requires forall i :: 0 <= i < |p| ==> p[i].field != field
    ensures Lookup(p + q, field) == Lookup(q, field)
  {
    if p == [] {
      assert p + q == q;
    } else {
      assert (p + q)[1..] == p[1..] + q;
      LookupSkip(p[1..], q, field);
    }
  }

  /** A lookup stops at a leading predicate on the field. */
  lemma LookupFront(p: seq<CrudFilter>, q: seq<CrudFilter>, field: string)
    requires |p| <= 1
    ensures p != [] && p[0].field == field ==> Lookup(p + q, field) == Some(p[0].value)
    ensures p == [] ==> Lookup(p + q, field) == Lookup(q, field)
  {
    if p == [] {
      assert p + q == q;
    } else {
      assert (p + q)[0] == p[0];
    }
  }

  /** Different filter inputs always give different permanent filters. */
  lemma PermanentFiltersInjective(s: FilterState, t: FilterState)
    requires PermanentFilters(s) == PermanentFilters(t)
    ensures s == t
  {
    DecodeStateRoundTrip(s);
    DecodeStateRoundTrip(t);
  }

  // ------------------------------------------------ lookups and table

  const LOOKUP_PAGE_SIZE: nat := 1000
  const CLASSES_PAGE_SIZE: nat := 10

  /** The request for every subject, used to fill the subject choices. */
  function SubjectsLookup(): (p: GetListParams)
    ensures p.resource == DataProvider.SUBJECTS_RESOURCE && p.filters == []
    ensures p.pagination == Some(Pagination(None, Some(LOOKUP_PAGE_SIZE), None))
  {
    GetListParams(DataProvider.SUBJECTS_RESOURCE, Some(Pagination(None, Some(LOOKUP_PAGE_SIZE), None)), [], [])
  }

  /** The request for the teachers: users restricted by exactly one
      predicate, role equal to the teacher role, up to 1000 of them. */
  function TeachersLookup(): (p: GetListParams)
    ensures p.resource == "users"
    ensures |p.filters| == 1 && p.filters[0] == CrudFilter(ROLE_FIELD, Eq, Constants.TEACHER)
    ensures p.filters[0].value in Constants.USER_ROLES && p.filters[0].value != Constants.ADMIN
    ensures p.pagination == Some(Pagination(None, Some(LOOKUP_PAGE_SIZE), None))
  {
    GetListParams("users", Some(Pagination(None, Some(LOOKUP_PAGE_SIZE), None)),
                  [CrudFilter(ROLE_FIELD, Eq, Constants.TEACHER)], [])
  }

  /** What the page hands to the table: resource, pagination, permanent
      filters and initial sort order. */
  datatype TableProps = TableProps(
    resource: string,
    pagination: Pagination,
    permanentFilters: seq<CrudFilter>,
    initialSorters: seq<CrudSort>)

  /** The classes table: ten per page on the server, the filters derived
      from the inputs, newest first. */
  function ClassesTable(s: FilterState): (t: TableProps)
    ensures t.resource == "classes"
    ensures t.pagination == Pagination(None, Some(CLASSES_PAGE_SIZE), Some(Server))
    ensures t.permanentFilters == PermanentFilters(s)
    ensures DecodeState(t.permanentFilters) == s
    ensures t.initialSorters == [CrudSort("createdAt", Desc)]
  {
    DecodeStateRoundTrip(s);
    TableProps("classes", Pagination(None, Some(CLASSES_PAGE_SIZE), Some(Server)),
               PermanentFilters(s), [CrudSort("createdAt", Desc)])
  }

  /** Served by the mock provider, the subject lookup yields the whole
      subjects table and the teacher lookup yields nothing. */
  lemma MockLookups()
    ensures DataProvider.GetList(SubjectsLookup()).data == Constants.SUBJECTS
    ensures DataProvider.GetList(TeachersLookup()).data == []
  {
  }
}
