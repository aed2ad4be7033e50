/**
 * The sign-in configuration: the built-in administrator account, the redirect guard that keeps
 * post-login navigation on the site, and the callbacks that carry a user's role from sign-in
 * into the token and from the token into the session.
 */
module Auth {
  import opened Wrappers
  import opened JsText

  const AdminUser: string := "admin"
  const AdminPass: string := "admin"

  /** The credentials form: either field may be missing. */
  datatype Credentials = Credentials(username: Option<string>, password: Option<string>)

  /** The user `authorize` hands to next-auth. */
  datatype AuthUser = AuthUser(id: string, name: string, email: string, role: string)

  /** The one account the credentials provider accepts. */
  const Administrator: AuthUser := AuthUser("admin", AdminUser, "admin@local", "admin")

  /** `authorize`: the administrator for `admin`/`admin`, and nobody for anything else. */
  function Authorize(credentials: Option<Credentials>): (r: Option<AuthUser>)
    ensures r.Some? <==> credentials == Some(Credentials(Some(AdminUser), Some(AdminPass)))
    ensures r.Some? ==> r.value == Administrator && r.value.role == "admin"
  {
    if credentials.None? || !Truthy(credentials.value.username) || !Truthy(credentials.value.password) then None
    else if credentials.value.username.value == AdminUser && credentials.value.password.value == AdminPass then Some(Administrator)
    else None
  }

  // ---------------------------------------------------------------- redirect

  const AuthorityStops: set<char> := {'/', '?', '#'}

  /**
   * `new URL(u).origin`, for a url of the form `scheme://authority...`: the scheme, `://` and
   * the authority up to the first `/`, `?` or `#`. Anything else does not parse.
   */
  function Origin(url: string): (r: Option<string>)
    ensures r.Some? ==> |r.value| <= |url| && url[..|r.value|] == r.value
  {
    var k := FirstOf(url, {':'});
    if k == 0 || k + 3 > |url| || url[k..k + 3] != "://" then None
    else
      var a := FirstOf(url[k + 3..], AuthorityStops);
      if a == 0 then None else Some(url[..k + 3 + a])
  }

  /** Appending a path, query or fragment to a bare origin keeps the origin. */
  lemma OriginOfExtension(o: string, rest: string)
    requires Origin(o) == Some(o)
    requires rest == [] || rest[0] in AuthorityStops
    ensures Origin(o + rest) == Some(o)
  {
    var u := o + rest;
    var k := FirstOf(o, {':'});
    assert k < |o|;
    FirstOfExtended(o, rest, {':'});
    assert u[k..k + 3] == o[k..k + 3];
    var a := FirstOf(o[k + 3..], AuthorityStops);
    assert k + 3 + a == |o|;
    assert u[k + 3..] == o[k + 3..] + rest;
    FirstOfExtended(o[k + 3..], rest, AuthorityStops);
    assert u[..k + 3 + a] == o;
  }

  /** The target after making a site-relative path absolute. */
  function RedirectTarget(url: string, baseUrl: string): string {
    if |url| > 0 && url[0] == '/' then StripTrailingSlash(baseUrl) + url else url
  }

  /** The `redirect` callback: the target when it is on the site's origin, the site's base url otherwise. */
  function Redirect(url: string, baseUrl: string): (r: string)
    ensures r == baseUrl || r == RedirectTarget(url, baseUrl)
  {
    var want := RedirectTarget(url, baseUrl);
    var wantOrigin := Origin(want);
    var baseOrigin := Origin(baseUrl);
    if wantOrigin.None? || baseOrigin.None? then baseUrl
    else if wantOrigin != baseOrigin then baseUrl
    else want
  }

  /** The guard: whatever `redirect` returns is the base url or a url on the base url's origin. */
  lemma RedirectStaysOnSite(url: string, baseUrl: string)
    ensures var r := Redirect(url, baseUrl);
      r == baseUrl || (Origin(r).Some? && Origin(r) == Origin(baseUrl))
  {
  }

  /** An absolute url on another origin, or one that does not parse, sends the user to the base url. */
  lemma RedirectRefusesForeign(url: string, baseUrl: string)
    requires |url| == 0 || url[0] != '/'
    requires Origin(url) != Origin(baseUrl) || Origin(url).None?
    ensures Redirect(url, baseUrl) == baseUrl
  {
  }

  /** A site-relative path is followed on a base url that is a bare origin, with or without a trailing slash. */
  lemma RedirectFollowsPath(path: string, origin: string)
    requires |path| > 0 && path[0] == '/'
    requires Origin(origin) == Some(origin)
    ensures Redirect(path, origin) == origin + path
    ensures Redirect(path, origin + "/") == origin + path
  {
    OriginOfExtension(origin, path);
    OriginOfExtension(origin, "/");
    assert StripTrailingSlash(origin + "/") == origin by {
      assert (origin + "/")[..|origin|] == origin;
    }
    assert origin[|origin| - 1] != '/' by {
      var k := FirstOf(origin, {':'});
      var a := FirstOf(origin[k + 3..], AuthorityStops);
      assert origin[k + 3..][..a] == origin[k + 3..];
      assert origin[|origin| - 1] == origin[k + 3..][a - 1];
    }
  }

  // ---------------------------------------------------------------- callbacks

  /** A signed-in user as the `jwt` callback sees it: only credential users carry a `role` key. */
  datatype SignedInUser = SignedInUser(role: Option<string>)

  /** The JSON web token next-auth keeps between requests. */
  class Token {
    var role: Option<string>
    var picture: Option<string>

    constructor(picture: Option<string>)
      ensures role == None && this.picture == picture
    {
      role := None;
      this.picture := picture;
    }

    /** `jwt`: the role of a freshly signed-in user is copied onto the token; otherwise it is left alone. */
    method Jwt(user: Option<SignedInUser>)
      modifies this
      ensures user.Some? && user.value.role.Some? ==> role == user.value.role
      ensures !(user.Some? && user.value.role.Some?) ==> role == old(role)
      ensures picture == old(picture)
    {
      if user.Some? && user.value.role.Some? {
        role := user.value.role;
      }
    }
  }

  /** The user part of a session. */
  datatype SessionUser = SessionUser(name: Option<string>, email: Option<string>, image: Option<string>, role: Option<string>)

  /** A session as route handlers receive it. */
  datatype Session = Session(user: Option<SessionUser>)

  /** The session object the `session` callback fills in. */
  class SessionObject {
    var user: Option<SessionUser>

    constructor(user: Option<SessionUser>)
      ensures this.user == user
    {
      this.user := user;
    }

    function Value(): Session
      reads this
    {
      Session(user)
    }

    /** `session`: the token's role and picture (or the old image) go onto the user, when there is one. */
    method Populate(token: Token)
      modifies this
      ensures old(user).None? ==> user == None
      ensures old(user).Some? ==> user == Some(old(user).value.(image := token.picture.OrElse(old(user).value.image), role := token.role))
    {
      if user.Some? {
        var u := user.value;
        user := Some(u.(image := token.picture.OrElse(u.image), role := token.role));
      }
    }
  }

  /**
   * A credentials sign-in from start to finish: `authorize`, then `jwt` on a fresh token, then
   * `session` on the user's session. Only `admin`/`admin` signs in, and its session carries
   * the `admin` role the admin routes check for.
   */
  method CredentialsSignIn(credentials: Option<Credentials>, user: SessionUser, picture: Option<string>)
    returns (session: Option<Session>)
    ensures session.Some? <==> credentials == Some(Credentials(Some(AdminUser), Some(AdminPass)))
    ensures session.Some? ==> session.value.user == Some(user.(image := picture.OrElse(user.image), role := Some("admin")))
  {
    var signedIn := Authorize(credentials);
    if signedIn.None? {
      return None;
    }
    var token := new Token(picture);
    token.Jwt(Some(SignedInUser(Some(signedIn.value.role))));
    var holder := new SessionObject(Some(user));
    holder.Populate(token);
    return Some(holder.Value());
  }
}
