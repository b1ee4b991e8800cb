/** Reference data and configuration of the admin interface: user roles and
    the roles offered in forms, the departments and their select options, the
    upload size limit, the required-environment-variable check, and the static
    subjects table served by the mock data provider. */
module Constants {
  import opened Wrappers

  // ---------------------------------------------------------------- roles

  const STUDENT := "student"
  const TEACHER := "teacher"
  const ADMIN := "admin"

  /** The values of the `USER_ROLES` object, in declaration order. */
  const USER_ROLES: seq<string> := [STUDENT, TEACHER, ADMIN]

  /** A select option; the icon of a role option is presentation only. */
  datatype SelectOption = SelectOption(value: string, caption: string)

  const ROLE_OPTIONS: seq<SelectOption> := [
    SelectOption(STUDENT, "Student"),
    SelectOption(TEACHER, "Teacher")
  ]

  /** Every role offered in a form is a known user role, and the
      administrator role is never offered. */
  lemma RoleOptionsAreNonAdminRoles()
    ensures forall o :: o in ROLE_OPTIONS ==> o.value in USER_ROLES && o.value != ADMIN
    ensures forall r :: r in USER_ROLES && r != ADMIN ==> exists o :: o in ROLE_OPTIONS && o.value == r
  {
  }

  // ---------------------------------------------------------- departments

  const DEPARTMENTS: seq<string> := [
    "Computer Science",
    "Mathematics",
    "Physics",
    "Chemistry",
    "Biology",
    "English",
    "History",
    "Geography",
    "Economics",
    "Business Administration",
    "Engineering",
    "Psychology",
    "Sociology",
    "Political Science",
    "Philosophy",
    "Education",
    "Fine Arts",
    "Music",
    "Physical Education",
    "Law"
  ]

  ghost predicate AllDistinct(s: seq<string>) {
    forall i, j :: 0 <= i < j < |s| ==> s[i] != s[j]
  }

  /** The department list names 20 different departments. */
  lemma DepartmentsDistinct()
    ensures |DEPARTMENTS| == 20
    ensures AllDistinct(DEPARTMENTS)
  {
  }

  /** `depts.map(dept => ({value: dept, label: dept}))`: one option per
      department, in the same order, whose value and caption are both the
      department's name. */
  function DepartmentOptions(depts: seq<string>): (r: seq<SelectOption>)
    ensures |r| == |depts|
    ensures forall i :: 0 <= i < |r| ==> r[i].value == depts[i] && r[i].caption == depts[i]
  {
    if depts == [] then [] else [SelectOption(depts[0], depts[0])] + DepartmentOptions(depts[1..])
  }

  const DEPARTMENT_OPTIONS: seq<SelectOption> := DepartmentOptions(DEPARTMENTS)

  /** The values a list of select options submits. */
  function OptionValues(opts: seq<SelectOption>): (r: seq<string>)
    ensures |r| == |opts|
  {
    if opts == [] then [] else [opts[0].value] + OptionValues(opts[1..])
  }

  /** Submitting the department options yields back exactly the department
      list: the mapping loses and invents nothing. */
  lemma {:induction false} DepartmentOptionsRoundTrip(depts: seq<string>)
    ensures OptionValues(DepartmentOptions(depts)) == depts
  {
    if depts != [] {
      DepartmentOptionsRoundTrip(depts[1..]);
    }
  }

  /** The published department options: 20 of them, pairwise distinct values,
      each value and caption equal to the department at the same index. */
  lemma DepartmentOptionsMatchDepartments()
    ensures |DEPARTMENT_OPTIONS| == |DEPARTMENTS| == 20
    ensures forall i :: 0 <= i < |DEPARTMENT_OPTIONS| ==>
      DEPARTMENT_OPTIONS[i].value == DEPARTMENTS[i] && DEPARTMENT_OPTIONS[i].caption == DEPARTMENTS[i]
    ensures forall i, j :: 0 <= i < j < |DEPARTMENT_OPTIONS| ==> DEPARTMENT_OPTIONS[i].value != DEPARTMENT_OPTIONS[j].value
  {
    DepartmentsDistinct();
  }

  // ------------------------------------------------------- upload limits

  const KIB: nat := 1024

  /** The largest upload accepted, in bytes: three mebibytes. */
  const MAX_FILE_SIZE: nat := 3 * KIB * KIB

  lemma MaxFileSizeIsThreeMebibytes()
    ensures MAX_FILE_SIZE == 3_145_728
    ensures MAX_FILE_SIZE / (KIB * KIB) == 3 && MAX_FILE_SIZE % (KIB * KIB) == 0
  {
  }

  // ------------------------------------------------------- configuration

  const MISSING_ENV_PREFIX := "Missing environment variable: "

  /** Reads a required setting. `value` is what the environment holds for
      `key` (None when it is not set). A missing or empty value is an error
      naming the key; anything else is returned unchanged. */
  function GetEnvVar(key: string, value: Option<string>): (r: Result<string, string>)
    ensures r.Success? <==> (value.Some? && value.value != "")
    ensures r.Success? ==> r.value == value.value
    ensures r.Failure? ==> r.error == MISSING_ENV_PREFIX + key
  {
    if value.None? || value.value == "" then Failure(MISSING_ENV_PREFIX + key)
    else Success(value.value)
  }

  const BACKEND_BASE_URL_KEY := "VITE_BACKEND_BASE_URL"

  /** The backend base URL read from the environment when the module loads;
      a failure here stops the application from starting. */
  function BackendBaseUrl(env: map<string, string>): (r: Result<string, string>)
    ensures r.Success? <==> (BACKEND_BASE_URL_KEY in env && env[BACKEND_BASE_URL_KEY] != "")
    ensures r.Success? ==> r.value == env[BACKEND_BASE_URL_KEY] && |r.value| > 0
    ensures r.Failure? ==> r.error == MISSING_ENV_PREFIX + BACKEND_BASE_URL_KEY
  {
    GetEnvVar(BACKEND_BASE_URL_KEY,
              if BACKEND_BASE_URL_KEY in env then Some(env[BACKEND_BASE_URL_KEY]) else None)
  }

  // ------------------------------------------------------------- subjects

  datatype Subject = Subject(id: int, name: string, code: string, department: string, description: string)

  const SUBJECTS: seq<Subject> := [
    Subject(1, "Introduction to Computer Science", "CS101", "Computer Science",
      "A foundational course covering the basics of computer science, including algorithms, data structures, and problem-solving techniques."),
    Subject(2, "Advanced Calculus", "MATH301", "Mathematics",
      "An in-depth study of multivariable calculus, vector analysis, and differential equations with applications in physics and engineering."),
    Subject(3, "Quantum Physics", "PHY401", "Physics",
      "Explores the fundamental principles of quantum mechanics, including wave-particle duality, the Schrodinger equation, and atomic theory.")
  ]

  /** The subjects table holds three records numbered 1, 2, 3 in order,
      with pairwise distinct codes, each belonging to a listed department. */
  lemma SubjectsTableWellFormed()
    ensures |SUBJECTS| == 3
    ensures forall i :: 0 <= i < |SUBJECTS| ==> SUBJECTS[i].id == i + 1
    ensures forall i, j :: 0 <= i < j < |SUBJECTS| ==> SUBJECTS[i].id != SUBJECTS[j].id && SUBJECTS[i].code != SUBJECTS[j].code
    ensures forall s :: s in SUBJECTS ==> s.department in DEPARTMENTS
  {
  }
}
