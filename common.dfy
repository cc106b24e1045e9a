/** Values shared by every part of the portal model: optional values, the
    result of one HTTP call as the page code sees it, and the user record
    returned by the current-user endpoint. */
module Common {

  datatype Option<+T> = None | Some(value: T)

  /** A response body as Axios hands it over.  `NoBody` stands for every
      falsy value (absent, null, 0, false); `TextBody` for a string, which is
      falsy only when empty; `ValueBody` for any other truthy value, carried
      together with the text JSON.stringify gives for it. */
  datatype Body = NoBody | TextBody(text: string) | ValueBody(json: string)

  /** Why an Axios call was rejected: the server answered with a non-2xx
      status, the request went out but nothing came back, or the request
      could not be set up at all. */
  datatype HttpFailure =
    | ResponseError(status: int, body: Body)
    | NoResponse
    | SetupError(message: string)

  /** The settled result of one HTTP call. */
  datatype Outcome<+T> = Success(data: T) | Failure(err: HttpFailure)

  /** The HTTP status of a failure, when the server sent one. */
  function StatusOf(err: HttpFailure): (r: Option<int>)
    ensures r.Some? <==> err.ResponseError?
    ensures err.ResponseError? ==> r.value == err.status
  {
    if err.ResponseError? then Some(err.status) else None
  }

  /** True when the call failed with 401 Unauthorized. */
  predicate IsUnauthorized<T>(o: Outcome<T>) {
    o.Failure? && StatusOf(o.err) == Some(401)
  }

  /** The current-user record.  `role` is free text: the pages compare it
      against 'admin', 'student', 'head' and 'employee'. */
  datatype User = User(id: string, username: string, email: string,
                       fullName: string, department: string, role: string)

  const Admin: string := "admin"
  const Student: string := "student"
  const Head: string := "head"
  const Employee: string := "employee"

  /** The four roles the portal knows. */
  const Roles: seq<string> := [Admin, Student, Head, Employee]
}
