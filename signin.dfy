/** `POST /api/auth/signin`: a mock sign-in that checks only that an email
    and a password are present. */
module SignIn {
  import opened Common

  datatype Credentials = Credentials(email: Option<string>, password: Option<string>)

  datatype MockUser = MockUser(
    id: string,
    name: string,
    email: string,
    role: string,
    isVerified: bool,
    createdAt: string)

  datatype SignInResponse =
    | InvalidRequest     // 400 'Invalid request'
    | MissingFields      // 400 'Missing required fields'
    | SignedIn(data: MockUser)

  /** `body` is `None` when the request body is not a JSON object; `now` is
      the current instant as an ISO string. */
  function SignIn(body: Option<Credentials>, now: string): (r: SignInResponse)
    ensures body.None? <==> r == InvalidRequest
    ensures body.Some? && !(Truthy(body.value.email) && Truthy(body.value.password)) <==> r == MissingFields
    ensures r.SignedIn? ==> body.Some? && Some(r.data.email) == body.value.email
    ensures r.SignedIn? ==> r.data.role == "CUSTOMER" && r.data.isVerified && r.data.createdAt == now
  {
    match body
    case None => InvalidRequest
    case Some(c) =>
      if !Truthy(c.email) || !Truthy(c.password) then MissingFields
      else SignedIn(MockUser("user-123", "John Mugisha", c.email.value, "CUSTOMER", true, now))
  }

  /** Any non-empty password is accepted: the response does not depend on
      its value. */
  lemma PasswordIsNotChecked(email: string, p: string, q: string, now: string)
    requires email != "" && p != "" && q != ""
    ensures SignIn(Some(Credentials(Some(email), Some(p))), now) == SignIn(Some(Credentials(Some(email), Some(q))), now)
    ensures SignIn(Some(Credentials(Some(email), Some(p))), now).SignedIn?
  {
  }
}
