/** The registration endpoint: validation of the submitted name, email and password, then,
    when a user database is configured and reachable, a lookup of the email and the insertion
    of a new account. The database is modelled as the set of registered emails. */
module RegisterRoute {
  import opened Util

  const MinPasswordLength: nat := 8

  const MissingFields: string := "Missing required fields"
  const PasswordTooShort: string := "Password must be at least 8 characters long"
  const InvalidEmail: string := "Invalid email format"
  const RegisteredMock: string := "User registered successfully (mock)"
  const AlreadyExists: string := "User with this email already exists"
  const Registered: string := "User registered successfully"
  const DatabaseFailed: string := "Database connection failed. Please try again later."
  const RegistrationFailed: string := "An error occurred during registration"

  /** The fields read from the JSON body; `None` is a field that is absent. */
  datatype RegisterBody = RegisterBody(name: Option<string>, email: Option<string>, password: Option<string>)

  /** A JSON response: its HTTP status and its `message`. */
  datatype Response = Response(status: nat, message: string)

  /** The user database: not configured at all, configured but failing (connection timeout
      or any later database error), or holding the registered emails. */
  datatype Database = NotConfigured | Failing | Users(emails: set<string>)

  /** The response together with the database after the request. */
  datatype Outcome = Outcome(response: Response, db: Database)

  /** A field passes the presence test when it is there and not empty. */
  predicate Present(field: Option<string>) {
    field.Some? && field.value != ""
  }

  /** An email is accepted when it holds an "@" and a "." anywhere, in either order. */
  predicate EmailShaped(email: string) {
    Contains(email, "@") && Contains(email, ".")
  }

  /** The three input checks, in order; the first that fails gives the response. */
  function Validate(body: RegisterBody): (r: Option<Response>)
    ensures r.Some? ==> r.value.status == 400
    ensures !(Present(body.name) && Present(body.email) && Present(body.password)) <==>
      r == Some(Response(400, MissingFields))
    ensures r == Some(Response(400, PasswordTooShort)) <==>
      Present(body.name) && Present(body.email) && Present(body.password)
      && |body.password.value| < MinPasswordLength
    ensures r == Some(Response(400, InvalidEmail)) <==>
      Present(body.name) && Present(body.email) && Present(body.password)
      && |body.password.value| >= MinPasswordLength && !EmailShaped(body.email.value)
    ensures r.None? <==>
      Present(body.name) && Present(body.email) && Present(body.password)
      && |body.password.value| >= MinPasswordLength && EmailShaped(body.email.value)
  {
    if !Present(body.name) || !Present(body.email) || !Present(body.password) then
      Some(Response(400, MissingFields))
    else if |body.password.value| < MinPasswordLength then Some(Response(400, PasswordTooShort))
    else if !EmailShaped(body.email.value) then Some(Response(400, InvalidEmail))
    else None
  }

  /** `POST`: a body that cannot be parsed, or is JSON `null`, fails with 500. */
  function Register(body: Option<RegisterBody>, db: Database): (r: Outcome)
    ensures body.None? ==> r == Outcome(Response(500, RegistrationFailed), db)
    ensures body.Some? && Validate(body.value).Some? ==> r == Outcome(Validate(body.value).value, db)
    ensures r.response.status != 201 ==> r.db == db
    ensures r.db != db ==>
      && body.Some? && db.Users? && body.value.email.value !in db.emails
      && r == Outcome(Response(201, Registered), Users(db.emails + {body.value.email.value}))
    ensures body.Some? && Validate(body.value).None? ==>
      match db
      case NotConfigured => r == Outcome(Response(201, RegisteredMock), db)
      case Failing => r == Outcome(Response(503, DatabaseFailed), db)
      case Users(emails) =>
        var email := body.value.email.value;
        r == if email in emails then Outcome(Response(409, AlreadyExists), db)
             else Outcome(Response(201, Registered), Users(emails + {email}))
  {
    if body.None? then Outcome(Response(500, RegistrationFailed), db)
    else
      var invalid := Validate(body.value);
      if invalid.Some? then Outcome(invalid.value, db)
      else
        match db
        case NotConfigured => Outcome(Response(201, RegisteredMock), db)
        case Failing => Outcome(Response(503, DatabaseFailed), db)
        case Users(emails) =>
          var email := body.value.email.value;
          if email in emails then Outcome(Response(409, AlreadyExists), db)
          else Outcome(Response(201, Registered), Users(emails + {email}))
  }

  /** Every stored email passed the checks: registration keeps that invariant. */
  predicate AllEmailsShaped(db: Database) {
    db.Users? ==> forall e :: e in db.emails ==> EmailShaped(e)
  }

  lemma RegisterKeepsEmailsShaped(body: Option<RegisterBody>, db: Database)
    requires AllEmailsShaped(db)
    ensures AllEmailsShaped(Register(body, db).db)
  {
  }

  /** Registering the same email a second time is refused with 409 and changes nothing. */
  lemma SecondRegistrationConflicts(first: RegisterBody, second: RegisterBody, emails: set<string>)
    requires second.email == first.email
    requires Register(Some(first), Users(emails)).response.status == 201
    requires Validate(second).None?
    ensures var db := Register(Some(first), Users(emails)).db;
      Register(Some(second), db) == Outcome(Response(409, AlreadyExists), db)
  {
  }

  /** A password of exactly eight characters is long enough, and the email test does not
      care where the "." stands. */
  lemma EightCharactersAndDotFirstAccepted()
    ensures Validate(RegisterBody(Some("Ann"), Some("a.b@c"), Some("12345678"))).None?
    ensures Validate(RegisterBody(Some("Ann"), Some("a.b@c"), Some("1234567"))) == Some(Response(400, PasswordTooShort))
  {
    assert Contains("a.b@c"[1..], ".");
    assert Contains("a.b@c"[3..], "@");
  }

  /** With no database configured, valid input is answered 201 and nothing is stored;
      without valid input the database is never consulted. */
  lemma MockStoresNothing(body: RegisterBody, db: Database)
    ensures Validate(body).None? ==>
      Register(Some(body), NotConfigured) == Outcome(Response(201, RegisteredMock), NotConfigured)
    ensures Validate(body).Some? ==> Register(Some(body), db).response == Register(Some(body), Failing).response
  {
  }
}
