/** server-simple.js: request validators that change nothing. The bearer guard
    compares the whole header, login and change-password reject missing fields
    with 400 before checking anything else, and the public settings map a
    database row, or its absence, to a response. */
module SimpleServer {
  import opened Values
  import opened Http
  import opened Uploads
  import Auth
  import PerfectServer
  import FinalServer

  const Token := "simple-admin-token"

  /** `simpleAuth`: a missing or empty header gives 401, any header other than
      exactly `"Bearer simple-admin-token"` gives 403, and the one accepted header
      attaches the fixed admin user. */
  function SimpleAuth(header: Option<string>): (r: Reply<Auth.User>)
    ensures r == Unauthorized <==> !Truthy(header)
    ensures r == Forbidden <==> Truthy(header) && header != Some(Auth.BearerPrefix + Token)
    ensures r.Ok? <==> header == Some(Auth.BearerPrefix + Token)
    ensures r.Ok? ==> r.value == Auth.Admin
  {
    if !Truthy(header) then Unauthorized
    else if header.value != Auth.BearerPrefix + Token then Forbidden
    else Ok(Auth.Admin)
  }

  /** This guard is stricter than server-perfect.js's guard for the same token:
      whatever it lets through passes there too, while the bare token passes
      there and is refused here. */
  lemma SimpleAuthStricterThanPerfect(header: Option<string>)
    ensures SimpleAuth(header).Ok? ==> PerfectServer.AuthMiddleware(header)
    ensures PerfectServer.AuthMiddleware(Some(Token)) && SimpleAuth(Some(Token)) == Forbidden
  {
    PerfectServer.TokenAccepted();
    assert Token[0] != Auth.BearerPrefix[0];
  }

  /** `POST /api/auth/login`: 400 when either field is missing or empty, checked
      first; then the one valid pair gets the token and the admin user, and every
      other pair gets 401. */
  function Login(username: Field, password: Field): (r: Reply<Auth.Session>)
    ensures r == BadRequest <==> !Truthy(username) || !Truthy(password)
    ensures r == Unauthorized <==> Truthy(username) && Truthy(password) && !Auth.ValidCredentials(username, password)
    ensures r.Ok? <==> Auth.ValidCredentials(username, password)
    ensures r.Ok? ==> r.value == Auth.Session(Token, Auth.Admin)
  {
    if !Truthy(username) || !Truthy(password) then BadRequest
    else Auth.Login(username, password, Token)
  }

  /** With both fields present the login agrees with server-perfect.js's; with a
      field missing this one answers 400 where that one answers 401. */
  lemma LoginComparedWithPerfect(username: Field, password: Field)
    ensures Truthy(username) && Truthy(password) ==> Login(username, password) == Auth.Login(username, password, PerfectServer.Token)
    ensures !Truthy(username) || !Truthy(password) ==>
              Login(username, password).Status() == 400 && Auth.Login(username, password, PerfectServer.Token).Status() == 401
  {
  }

  /** The issued token opens this server's guard and its verify handler. */
  lemma LoginTokenAccepted(username: Field, password: Field)
    requires Login(username, password).Ok?
    ensures SimpleAuth(Some(Auth.BearerPrefix + Login(username, password).value.token)).Ok?
    ensures Verify(Some(Login(username, password).value.token)).Ok?
  {
  }

  /** `POST /api/auth/verify`: the admin user exactly for this server's token. */
  function Verify(token: Field): (r: Reply<Auth.User>)
    ensures r.Ok? <==> token == Some(Token)
    ensures r.Ok? ==> r.value == Auth.Admin
    ensures !r.Ok? ==> r == Unauthorized
  {
    Auth.Verify(token, Token)
  }

  /** `POST /api/auth/change-password`: 400 when either field is missing or
      empty, 401 when the current password is not the fixed one, success
      otherwise; nothing is stored. */
  function ChangePassword(currentPassword: Field, newPassword: Field): (r: Reply<()>)
    ensures r == BadRequest <==> !Truthy(currentPassword) || !Truthy(newPassword)
    ensures r == Unauthorized <==> Truthy(newPassword) && Truthy(currentPassword) && currentPassword != Some(Auth.AdminPassword)
    ensures r.Ok? <==> Truthy(newPassword) && currentPassword == Some(Auth.AdminPassword)
  {
    if !Truthy(currentPassword) || !Truthy(newPassword) then BadRequest
    else if currentPassword != Some(Auth.AdminPassword) then Unauthorized
    else Ok(())
  }

  /** A successful password change has no effect: the new password still fails
      to log in (unless it is the old one) and the old one still succeeds. */
  lemma ChangePasswordStoresNothing(newPassword: Field)
    requires ChangePassword(Some(Auth.AdminPassword), newPassword).Ok?
    ensures newPassword != Some(Auth.AdminPassword) ==> Login(Some(Auth.AdminUsername), newPassword) == Unauthorized
    ensures Login(Some(Auth.AdminUsername), Some(Auth.AdminPassword)).Ok?
  {
  }

  // ------------------------------------------------------------------ settings

  /** The `site_settings` row with id 1; a `NULL` column is `None`. */
  datatype SettingsRow = SettingsRow(
    siteName: Option<string>,
    logoPath: Option<string>,
    primaryColor: Option<string>,
    secondaryColor: Option<string>,
    backgroundColor: Option<string>)

  /** What the database query yields: the row, no row, or an error. */
  datatype RowLookup = Found(row: SettingsRow) | Missing | Failed

  datatype PublicSettings = PublicSettings(
    siteName: Option<string>,
    logo: Option<string>,
    primaryColor: Option<string>,
    secondaryColor: Option<string>,
    backgroundColor: Option<string>)

  const DefaultSettings := PublicSettings(Some("قائمة الطعام"), None, Some("#3b82f6"), Some("#1e40af"), Some("#f8fafc"))

  /** `GET /api/settings`: a found row's columns under camelCase names with the
      logo as its `/uploads/` URL when `logo_path` is non-empty; the fixed
      defaults when there is no row or the query fails. */
  function SettingsResponse(lookup: RowLookup): (r: PublicSettings)
    ensures lookup.Found? ==>
              r.siteName == lookup.row.siteName && r.primaryColor == lookup.row.primaryColor
              && r.secondaryColor == lookup.row.secondaryColor && r.backgroundColor == lookup.row.backgroundColor
              && UploadedName(r.logo) == (if Truthy(lookup.row.logoPath) then lookup.row.logoPath else None)
    ensures lookup.Found? ==> (r.logo.Some? <==> Truthy(lookup.row.logoPath))
    ensures !lookup.Found? ==> r == DefaultSettings
  {
    match lookup
    case Found(row) =>
      UploadUrlRoundTrip(row.logoPath);
      PublicSettings(row.siteName, UploadUrl(row.logoPath), row.primaryColor, row.secondaryColor, row.backgroundColor)
    case Missing => DefaultSettings
    case Failed => DefaultSettings
  }

  /** The default colors are the seed colors of the in-memory servers. */
  lemma DefaultColorsMatchSeeds()
    ensures DefaultSettings.primaryColor == Some(FinalServer.SeedSettings.primaryColor)
            == Some(PerfectServer.SeedSettings.primaryColor)
    ensures DefaultSettings.secondaryColor == Some(FinalServer.SeedSettings.secondaryColor)
            == Some(PerfectServer.SeedSettings.secondaryColor)
    ensures DefaultSettings.backgroundColor == Some(FinalServer.SeedSettings.backgroundColor)
            == Some(PerfectServer.SeedSettings.backgroundColor)
  {
  }
}
