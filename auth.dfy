/** The hard-coded authentication shared by the in-memory servers: the bearer
    check of `authMiddleware`, the login and the token verification. Each server
    supplies its own token constant. */
module Auth {
  import opened Values
  import opened Http
  import opened Strings

  const BearerPrefix := "Bearer "
  const AdminUsername := "admin"
  const AdminPassword := "admin123"

  datatype User = User(id: int, username: string, fullName: string)

  /** The fixed user every successful login, verification and guard reports. */
  const Admin := User(1, "admin", "مدير النظام")

  /** The body of a successful login. */
  datatype Session = Session(token: string, user: User)

  /** `req.headers.authorization?.replace("Bearer ", "") === token`: a missing
      header is `undefined` and fails; otherwise the first `"Bearer "` anywhere in
      the header is removed and the rest must equal the token. */
  predicate BearerAccepts(header: Option<string>, token: string) {
    header.Some? && ReplaceFirst(header.value, BearerPrefix, "") == token
  }

  /** For a token without the letter `B`, the accepted headers are exactly the bare
      token and the token with `"Bearer "` inserted at any one position (in front
      of it being the intended form). */
  lemma AcceptedHeaders(header: string, token: string)
    requires 'B' !in token
    ensures BearerAccepts(Some(header), token)
            <==> header == token
                 || exists k :: 0 <= k <= |token| && header == token[..k] + BearerPrefix + token[k..]
  {
    if BearerAccepts(Some(header), token) {
      AcceptedHasOneScheme(header, token);
    }
    if header == token {
      NoSchemeNoStripping(token, token);
    }
    if exists k :: 0 <= k <= |token| && header == token[..k] + BearerPrefix + token[k..] {
      var k :| 0 <= k <= |token| && header == token[..k] + BearerPrefix + token[k..];
      InsertedSchemeAccepted(token, k);
    }
  }

  /** An accepted header is the token, or the token with one `"Bearer "` inserted. */
  lemma AcceptedHasOneScheme(header: string, token: string)
    requires BearerAccepts(Some(header), token)
    ensures header == token
            || exists k :: 0 <= k <= |token| && header == token[..k] + BearerPrefix + token[k..]
  {
    ReplaceFirstRemovedOne(header, BearerPrefix, token);
  }

  /** Inserting `"Bearer "` anywhere into a token without `B` gives an accepted header. */
  lemma InsertedSchemeAccepted(token: string, k: nat)
    requires 'B' !in token && k <= |token|
    ensures BearerAccepts(Some(token[..k] + BearerPrefix + token[k..]), token)
  {
    assert forall i :: 0 <= i < k ==> token[..k][i] == token[i];
    ReplaceFirstUndoesInsert(token[..k], BearerPrefix, token[k..]);
    assert token[..k] + token[k..] == token;
  }

  /** A header without a capital `B` holds no `"Bearer "` to remove, so it is
      accepted only when it is the token itself. */
  lemma NoSchemeNoStripping(header: string, token: string)
    requires 'B' !in header
    ensures BearerAccepts(Some(header), token) <==> header == token
  {
    MissingCharNotContained(header, BearerPrefix, 0);
  }

  /** `username === "admin" && password === "admin123"`. */
  predicate ValidCredentials(username: Field, password: Field) {
    username == Some(AdminUsername) && password == Some(AdminPassword)
  }

  /** The login handler of the in-memory servers: the token and the admin user
      for the one valid pair, 401 for anything else (missing fields included). */
  function Login(username: Field, password: Field, token: string): (r: Reply<Session>)
    ensures r.Ok? <==> ValidCredentials(username, password)
    ensures r.Ok? ==> r.value == Session(token, Admin)
    ensures !r.Ok? ==> r == Unauthorized
  {
    if ValidCredentials(username, password) then Ok(Session(token, Admin)) else Unauthorized
  }

  /** The verify handler: the admin user exactly when the body's token is the
      server's token, 401 otherwise. */
  function Verify(token: Field, expected: string): (r: Reply<User>)
    ensures r.Ok? <==> token == Some(expected)
    ensures r.Ok? ==> r.value == Admin
    ensures !r.Ok? ==> r == Unauthorized
  {
    if token == Some(expected) then Ok(Admin) else Unauthorized
  }

  /** The token a login hands out is accepted by the guard when sent as
      `Bearer <token>`, and by the verify handler. */
  lemma IssuedTokenAccepted(username: Field, password: Field, token: string)
    requires Login(username, password, token).Ok?
    ensures var issued := Login(username, password, token).value.token;
            BearerAccepts(Some(BearerPrefix + issued), token) && Verify(Some(issued), token).Ok?
  {
    ReplaceFirstUndoesInsert("", BearerPrefix, token);
    assert "" + BearerPrefix + token == BearerPrefix + token;
    assert "" + token == token;
  }
}
