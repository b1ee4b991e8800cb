# Classroom admin: mock data provider, class-list filters and reference data

This project models, in Dafny, the data-access core of a school-management
admin interface built on a declarative CRUD framework:

- **The mock data provider** (`DataProvider`). Its `getList` looks only at the
  resource name. It serves the static subjects table for `"subjects"` and an
  empty page with total 0 for anything else. `getOne`, `create`, `update` and
  `deleteOne` always fail with "This function is not present in mock".
  `getApiUrl` is empty. Asynchronous results are plain values, and a thrown
  error is a `Failure` of `Wrappers.Result`.
- **The class-list filter derivation** (`ClassesList`). The page has three
  inputs: search text, chosen subject and chosen teacher. They become the
  table's ordered permanent filter predicates `(field, operator, value)`.
  The module also models the two lookup requests that fill the choice lists
  and the table's pagination and sort settings. `DecodeState` reads the
  inputs back from a filter list. It is the inverse against which the
  derivation is proved lossless.
- **Reference data and configuration** (`Constants`). This covers the user
  roles and the roles offered in forms, the departments and their select
  options, the upload size limit and the required-environment-variable check
  `getEnvVar`. It also holds the subjects table that the provider serves.
- `RefineTypes` holds the framework's request shapes that the core builds or
  receives: filters, sorters, pagination and list parameters. `Wrappers`
  holds `Option` and `Result`.

src/providers/data.ts holds only a mock provider. No REST adapter
(query-parameter mapping, response envelopes, error normalisation) is part
of these files, so none is modelled.

## Model

| member | source | states |
|---|---|---|
| `DataProvider.GetList` | src/providers/data.ts:5-11 | total equals the number of records returned; "subjects" gets exactly the subjects table in order (3 records); any other resource gets no records and total 0; no failure path |
| `DataProvider.GetListDependsOnlyOnResource` | src/providers/data.ts:5 | two requests with the same resource get equal results, whatever their pagination, filters and sorters (no state is kept between calls) |
| `DataProvider.GetListServesOnlySubjects` | src/providers/data.ts:6-10 | every listed record is a subjects-table row; the total lies between 0 and the table size and is positive exactly for "subjects" |
| `DataProvider.GetOne` | src/providers/data.ts:12-14 | always fails with the not-in-mock message and never yields a record |
| `DataProvider.Create` | src/providers/data.ts:15-17 | always fails with the not-in-mock message |
| `DataProvider.Update` | src/providers/data.ts:18-20 | always fails with the not-in-mock message |
| `DataProvider.DeleteOne` | src/providers/data.ts:21-23 | always fails with the not-in-mock message |
| `DataProvider.GetApiUrl` | src/providers/data.ts:25 | the API URL is the empty string |
| `ClassesList.SubjectFilters` | src/pages/classes/list.tsx:35-39 | empty exactly when the choice is "all"; otherwise the single predicate subject eq choice |
| `ClassesList.TeacherFilters` | src/pages/classes/list.tsx:41-45 | empty exactly when the choice is "all"; otherwise the single predicate teacher eq choice |
| `ClassesList.SearchFilters` | src/pages/classes/list.tsx:47-51 | empty exactly when the search text is empty; otherwise the single predicate name contains text |
| `ClassesList.PermanentFilters` | src/pages/classes/list.tsx:124 | at most 3 predicates, each one of the three derived from the inputs with the input value unchanged |
| `ClassesList.PermanentFiltersOrdered` | src/pages/classes/list.tsx:124 | subject predicates precede teacher predicates, which precede search predicates, so no field appears twice |
| `ClassesList.PermanentFilterCount` | src/pages/classes/list.tsx:17-19 | the filter count equals the number of inputs away from their default, and the list is empty exactly in the initial state ("", "all", "all") |
| `ClassesList.DecodeStateRoundTrip` | src/pages/classes/list.tsx:35-51 | reading the inputs back from the permanent filters gives the original inputs |
| `ClassesList.LookupSkip` | src/pages/classes/list.tsx:124 | reading a field back from a concatenation skips a leading part that holds no predicate on that field |
| `ClassesList.PermanentFiltersInjective` | src/pages/classes/list.tsx:35-51 | different inputs always give different permanent filters |
| `ClassesList.SubjectsLookup` | src/pages/classes/list.tsx:21-24 | the subject lookup asks for the subjects resource, unfiltered, with page size 1000 |
| `ClassesList.TeachersLookup` | src/pages/classes/list.tsx:26-30 | the teacher lookup asks for users with exactly one predicate, role eq "teacher" (a user role, not admin), with page size 1000 |
| `ClassesList.ClassesTable` | src/pages/classes/list.tsx:120-131 | the classes table pages on the server 10 at a time, sorts by createdAt descending, and its permanent filters are exactly the subject, teacher and search filters derived from the inputs, in that order, and decode back to the inputs |
| `ClassesList.MockLookups` | src/pages/classes/list.tsx:21-33 | under the mock provider the subject lookup yields the whole subjects table and the teacher lookup yields nothing |
| `Constants.GetEnvVar` | src/constants/index.ts:58-64 | succeeds exactly when the value is present and non-empty, then returns it unchanged; otherwise fails with "Missing environment variable: " followed by the key |
| `Constants.BackendBaseUrl` | src/constants/index.ts:68 | the backend base URL loads exactly when VITE_BACKEND_BASE_URL is set and non-empty, and it is then that value |
| `Constants.RoleOptionsAreNonAdminRoles` | src/constants/index.ts:3-20 | every offered role is a user role and none is admin; every non-admin role is offered |
| `Constants.DepartmentsDistinct` | src/constants/index.ts:22-43 | there are 20 departments, pairwise distinct |
| `Constants.DepartmentOptions` | src/constants/index.ts:45-48 | one option per department in the same order; value and caption both equal the department at that index |
| `Constants.DepartmentOptionsRoundTrip` | src/constants/index.ts:45-48 | the values of the department options are exactly the department list |
| `Constants.DepartmentOptionsMatchDepartments` | src/constants/index.ts:45-48 | the published options number 20, match the departments index by index and have distinct values |
| `Constants.MaxFileSizeIsThreeMebibytes` | src/constants/index.ts:50 | the upload limit is 3 x 1024 x 1024 = 3,145,728 bytes, a whole number of mebibytes |
| `Constants.SubjectsTableWellFormed` | src/constants/index.ts:93-115 | three subjects numbered 1, 2, 3 in order, with distinct ids and codes, each in a listed department |

## Left out

- Asynchrony: provider operations are `async` in the source. Here each result is a plain value, and a rejected promise is a `Failure`.
- `import.meta.env`: `GetEnvVar` takes the looked-up value as an explicit optional string, and `BackendBaseUrl` takes the environment as a map. The commented-out settings at src/constants/index.ts:66-76 are not modelled.
- Provider records are typed as the subjects-table row. The source casts the table to the caller's record type, and the model does not capture that cast.
- React rendering, input handlers and select contents of the classes page (src/pages/classes/list.tsx:53-119 and 134-184) are UI. The table columns are part of this.
- The `useList`/`useTable` hooks are framework code. The model has only their inputs: the lookup requests and the table props.
- Icons on the role options, the `teachers` display table and `ALLOWED_TYPES` are presentation data with no behaviour.
