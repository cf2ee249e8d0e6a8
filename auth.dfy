/**
 * The authentication routes of the backend: `POST /signin` checks the
 * credentials against `db_login_portal` in a fixed order and issues a token,
 * `GET /session` turns an `Authorization` header back into a user or into
 * `user: null`, and `POST /signout` always succeeds. Signing and verifying
 * tokens belong to a library and are parameters here.
 */
module Auth {
  import opened Wrappers
  import opened Text
  import opened Db

  /** The columns of `db_login_portal` the routes read. */
  datatype LoginUser = LoginUser(
    id: int,
    emailVend: string,
    senhaVend: string,
    nome: string,
    funcao: string,
    status: Option<string>,
    fotoPerfil: Option<string>)

  /** The claims a token carries. */
  datatype Claims = Claims(id: int, email: string, nome: string)

  /** The user object of a reply; its id is the row's id as text. */
  datatype PublicUser = PublicUser(id: string, email: string, nome: string, funcao: string, fotoPerfil: Option<string>)

  /** The reply of `/signin`: an error status with its message, or the user and its access token. */
  datatype SignInReply = Refused(status: nat, error: string) | SignedIn(user: PublicUser, accessToken: string)

  const MissingCredentials := "Email e senha são obrigatórios"
  const BadCredentials := "Email ou senha inválidos"
  const InactiveUser := "Usuário inativo"
  const SignedOut := "Logout realizado com sucesso"

  /** `user.status && user.status.toLowerCase() === 'inativo'`. */
  predicate IsInactive(status: Option<string>) {
    Truthy(status) && LowerAscii(status.value) == "inativo"
  }

  /** The status counts as inactive exactly when it spells `inativo` in any mix of cases. */
  lemma InactiveMeaning(status: Option<string>)
    ensures IsInactive(status) <==> (status.Some? && |status.value| == 7 &&
      forall i :: 0 <= i < 7 ==> LowerAsciiChar(status.value[i]) == "inativo"[i])
  {
    if status.Some? && |status.value| == 7 && forall i :: 0 <= i < 7 ==> LowerAsciiChar(status.value[i]) == "inativo"[i] {
      assert LowerAscii(status.value) == "inativo";
    }
  }

  function Publish(user: LoginUser): (p: PublicUser)
    ensures p.id == IntToString(user.id) && p.email == user.emailVend && p.nome == user.nome
    ensures p.funcao == user.funcao && p.fotoPerfil == user.fotoPerfil
  {
    PublicUser(IntToString(user.id), user.emailVend, user.nome, user.funcao, user.fotoPerfil)
  }

  /**
   * `POST /signin`. `lookup` is the query by `email_vend`, run only once both
   * credentials are present; `sign` issues the token over the claims.
   */
  function SignIn(email: Option<string>, password: Option<string>, lookup: string -> Fetch<LoginUser>, sign: Claims -> string): (r: SignInReply)
    ensures !Truthy(email) || !Truthy(password) ==> r == Refused(400, MissingCredentials)
    ensures r.Refused? ==> r.status in {400, 401, 403}
    ensures r.SignedIn? <==> (Truthy(email) && Truthy(password) && Single(lookup(email.value)).Some? &&
      Single(lookup(email.value)).value.senhaVend == password.value && !IsInactive(Single(lookup(email.value)).value.status))
  {
    if !Truthy(email) || !Truthy(password) then Refused(400, MissingCredentials)
    else
      match Single(lookup(email.value))
      case None => Refused(401, BadCredentials)
      case Some(user) =>
        if user.senhaVend != password.value then Refused(401, BadCredentials)
        else if IsInactive(user.status) then Refused(403, InactiveUser)
        else SignedIn(Publish(user), sign(Claims(user.id, user.emailVend, user.nome)))
  }

  /** Missing credentials are refused whatever the database holds: the lookup is never consulted. */
  lemma MissingCredentialsBeforeLookup(email: Option<string>, password: Option<string>,
                                       lookup1: string -> Fetch<LoginUser>, lookup2: string -> Fetch<LoginUser>, sign: Claims -> string)
    requires !Truthy(email) || !Truthy(password)
    ensures SignIn(email, password, lookup1, sign) == SignIn(email, password, lookup2, sign) == Refused(400, MissingCredentials)
  {
  }

  /**
   * An unknown email and a wrong password get the same reply, so the reply
   * does not tell which of the two was wrong.
   */
  lemma UnknownEmailLooksLikeWrongPassword(email: string, password: string, lookup: string -> Fetch<LoginUser>, sign: Claims -> string)
    requires email != "" && password != ""
    requires Single(lookup(email)).None? || Single(lookup(email)).value.senhaVend != password
    ensures SignIn(Some(email), Some(password), lookup, sign) == Refused(401, BadCredentials)
  {
  }

  /** An inactive user learns of it only with the right password: a wrong one still gets 401. */
  lemma InactiveOnlyAfterPassword(email: string, password: string, lookup: string -> Fetch<LoginUser>, sign: Claims -> string)
    requires email != "" && password != "" && Single(lookup(email)).Some?
    requires IsInactive(Single(lookup(email)).value.status)
    ensures SignIn(Some(email), Some(password), lookup, sign).status ==
      if Single(lookup(email)).value.senhaVend == password then 403 else 401
  {
  }

  /** A successful sign-in returns the row's public fields, with the id as text, and the token over `{id, email, nome}`. */
  lemma SignInSuccess(email: string, password: string, lookup: string -> Fetch<LoginUser>, sign: Claims -> string)
    requires SignIn(Some(email), Some(password), lookup, sign).SignedIn?
    ensures var user := lookup(email).rows[0];
      |lookup(email).rows| == 1 &&
      SignIn(Some(email), Some(password), lookup, sign) ==
        SignedIn(PublicUser(IntToString(user.id), user.emailVend, user.nome, user.funcao, user.fotoPerfil),
                 sign(Claims(user.id, user.emailVend, user.nome)))
  {
  }

  /** The token of an `Authorization` header: the first `Bearer ` removed, wherever it is. */
  function BearerToken(header: string): string {
    ReplaceFirst(header, "Bearer ", "")
  }

  /** A header that starts with `Bearer ` gives the rest; a header without it is the token itself. */
  lemma BearerTokenCases(header: string)
    ensures StartsWith(header, "Bearer ") ==> BearerToken(header) == header[7..]
    ensures (forall j :: !OccursAt(header, "Bearer ", j)) ==> BearerToken(header) == header
  {
    if StartsWith(header, "Bearer ") { ReplaceFirstAtStart(header, "Bearer "); }
    if forall j :: !OccursAt(header, "Bearer ", j) { ReplaceFirstAbsent(header, "Bearer ", ""); }
  }

  /** Only the first `Bearer ` goes: `Bearer Bearer t` leaves `Bearer t`. */
  lemma BearerTokenFirstOnly(t: string)
    ensures BearerToken("Bearer Bearer " + t) == "Bearer " + t
  {
    var header := "Bearer " + ("Bearer " + t);
    assert "Bearer Bearer " + t == header;
    assert header[..7] == "Bearer ";
    ReplaceFirstAtStart(header, "Bearer ");
    assert header[7..] == "Bearer " + t;
  }

  /**
   * `GET /session`. `verify` decodes a valid token and `lookup` is the query
   * by id; every failure, a thrown one included, answers `user: null` (None).
   */
  function Session(header: Option<string>, verify: string -> Option<Claims>, lookup: int -> Fetch<LoginUser>): (r: Option<PublicUser>)
    ensures r.Some? <==> (Truthy(header) && verify(BearerToken(header.value)).Some? &&
      Single(lookup(verify(BearerToken(header.value)).value.id)).Some? &&
      !IsInactive(Single(lookup(verify(BearerToken(header.value)).value.id)).value.status))
    ensures r.Some? ==> r == Some(Publish(Single(lookup(verify(BearerToken(header.value)).value.id)).value))
  {
    if !Truthy(header) then None
    else
      match verify(BearerToken(header.value))
      case None => None
      case Some(claims) =>
        match Single(lookup(claims.id))
        case None => None
        case Some(user) => if IsInactive(user.status) then None else Some(Publish(user))
  }

  /** A session token issued by sign-in, sent back as `Bearer <token>`, finds its user again while the row is unchanged and active. */
  lemma SessionAfterSignIn(email: string, password: string, lookup: string -> Fetch<LoginUser>, byId: int -> Fetch<LoginUser>,
                           sign: Claims -> string, verify: string -> Option<Claims>)
    requires SignIn(Some(email), Some(password), lookup, sign).SignedIn?
    requires forall c :: verify(sign(c)) == Some(c)
    requires byId(lookup(email).rows[0].id) == Rows([lookup(email).rows[0]])
    ensures Session(Some("Bearer " + SignIn(Some(email), Some(password), lookup, sign).accessToken), verify, byId) ==
      Some(SignIn(Some(email), Some(password), lookup, sign).user)
  {
    var token := SignIn(Some(email), Some(password), lookup, sign).accessToken;
    var header := "Bearer " + token;
    assert StartsWith(header, "Bearer ");
    BearerTokenCases(header);
    assert header[7..] == token;
  }

  /**
   * `POST /signout`: the route's try and catch branches send the same reply,
   * so the message never depends on what happened.
   */
  function SignOut(): (message: string)
    ensures message == "Logout realizado com sucesso"
  {
    SignedOut
  }
}
