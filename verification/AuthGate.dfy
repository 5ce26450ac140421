/**
  * The application shell: on mount it decides from the stored tokens whether
  * the user is authenticated, and it maps the route path to a view.
  *
  * Browser storage entries are optional strings. `JSON.parse` followed by the
  * destructuring of `access_token` and `expires_in` is an input function from
  * the stored text to what the two names are bound to (or to a throw).
  */
module AuthGate {
  import opened Text

  /** A JavaScript value, as far as truthiness and `> 0` can tell values apart. */
  datatype JsValue =
    | Undefined
    | Null
    | Bool(b: bool)
    | Number(n: real)                         // a JSON number
    | Str(s: string, asNumber: Option<real>)  // `asNumber`: ToNumber of the text, None for NaN
    | Compound(asNumber: Option<real>)        // an array or object; always truthy

  predicate Truthy(v: JsValue) {
    match v
    case Undefined => false
    case Null => false
    case Bool(b) => b
    case Number(n) => n != 0.0
    case Str(s, _) => s != ""
    case Compound(_) => true
  }

  /** `v > 0`: `v` converted to a number, NaN comparing false. */
  predicate GreaterThanZero(v: JsValue) {
    match v
    case Undefined => false
    case Null => false
    case Bool(b) => b
    case Number(n) => n > 0.0
    case Str(_, x) => x.Some? && x.value > 0.0
    case Compound(x) => x.Some? && x.value > 0.0
  }

  /**
    * The outcome of `const { access_token, expires_in } = JSON.parse(t)`:
    * a throw (text that is not JSON, or JSON `null`), or the two bound values
    * (`Undefined` where the parsed value has no such property).
    */
  datatype Parsed = Throws | Fields(accessToken: JsValue, expiresIn: JsValue)

  /** A stored entry counts when it is present and not the empty string. */
  predicate Present(t: Option<string>) {
    t.Some? && t.value != ""
  }

  /** `localStorage.getItem("tokens") || sessionStorage.getItem("tokens")`. */
  function StoredTokens(local: Option<string>, session: Option<string>): (r: Option<string>)
    ensures Present(local) ==> r == local
    ensures !Present(local) ==> r == session
    ensures Present(r) <==> Present(local) || Present(session)
  {
    if Present(local) then local else session
  }

  /** The test the stored tokens must pass: a truthy `access_token` and `expires_in > 0`. */
  predicate TokensUsable(p: Parsed) {
    p.Fields? && Truthy(p.accessToken) && GreaterThanZero(p.expiresIn)
  }

  /**
    * The value the mount effect passes to `setIsAuthenticated`, as written:
    * `access_token && expires_in > 0` yields the token itself when it is falsy.
    */
  function MountValueAsWritten(local: Option<string>, session: Option<string>, parse: string -> Parsed): (v: JsValue)
    ensures !Present(local) && !Present(session) ==> v == Bool(false)
    ensures Present(StoredTokens(local, session)) && parse(StoredTokens(local, session).value) == Throws
      ==> v == Bool(false)
    ensures Present(StoredTokens(local, session)) && parse(StoredTokens(local, session).value).Fields?
      ==> var p := parse(StoredTokens(local, session).value);
          v == if Truthy(p.accessToken) then Bool(GreaterThanZero(p.expiresIn)) else p.accessToken
    ensures v.Bool? || !Truthy(v)
    ensures Truthy(v) <==> Present(StoredTokens(local, session)) && TokensUsable(parse(StoredTokens(local, session).value))
  {
    var stored := StoredTokens(local, session);
    if !Present(stored) then Bool(false)
    else
      match parse(stored.value)
      case Throws => Bool(false)
      case Fields(token, expires) => if !Truthy(token) then token else Bool(GreaterThanZero(expires))
  }

  /**
    * The mount effect's decision as a boolean: the stored entry (local storage
    * first) must be present, parse, and pass the token test. It is the
    * truthiness of the value the source stores.
    */
  function TokenValid(local: Option<string>, session: Option<string>, parse: string -> Parsed): (ok: bool)
    ensures ok == Truthy(MountValueAsWritten(local, session, parse))
    ensures !Present(local) && !Present(session) ==> !ok
    ensures Present(local) ==> (ok <==> TokensUsable(parse(local.value)))
    ensures !Present(local) && Present(session) ==> (ok <==> TokensUsable(parse(session.value)))
  {
    var stored := StoredTokens(local, session);
    Present(stored) && TokensUsable(parse(stored.value))
  }

  /** Tokens that do not parse never authenticate, even when the other storage holds good ones. */
  lemma UnparseableLocalTokensDeny(local: Option<string>, session: Option<string>, parse: string -> Parsed)
    requires Present(local) && parse(local.value) == Throws
    ensures !TokenValid(local, session, parse)
  {
  }

  // ----- Routes -----

  datatype View = Loading | Redirect(to: string) | LoginPage | RegistrationPage | UploadPage

  /** What the shell renders at `path`; `auth` is `None` while `isAuthenticated` is still null. */
  function Render(auth: Option<bool>, path: string): (v: View)
    ensures v == Loading <==> auth.None?
    ensures auth.Some? && path == "/" ==> v == Redirect(if auth.value then "/upload" else "/login")
    ensures auth.Some? && path == "/login" ==> v == LoginPage
    ensures auth.Some? && path == "/register" ==> v == RegistrationPage
    ensures v == UploadPage <==> auth == Some(true) && path == "/upload"
    ensures auth == Some(false) && path == "/upload" ==> v == Redirect("/login")
    ensures auth.Some? && path !in {"/", "/login", "/register", "/upload"} ==> v == Redirect("/")
  {
    match auth
    case None => Loading
    case Some(a) =>
      if path == "/" then (if a then Redirect("/upload") else Redirect("/login"))
      else if path == "/login" then LoginPage
      else if path == "/register" then RegistrationPage
      else if path == "/upload" then (if a then UploadPage else Redirect("/login"))
      else Redirect("/")
  }

  /** Render, then follow at most `hops` redirects. */
  function Follow(auth: Option<bool>, path: string, hops: nat): View
    decreases hops
  {
    match Render(auth, path)
    case Redirect(to) => if hops == 0 then Redirect(to) else Follow(auth, to, hops - 1)
    case v => v
  }

  /**
    * Once the decision is made every path settles on a page within two
    * redirects: the registration page when asked for, the upload page for an
    * authenticated user otherwise, and the login page for everyone else.
    */
  lemma RoutesSettle(a: bool, path: string)
    ensures Follow(Some(a), path, 2) ==
      if path == "/register" then RegistrationPage
      else if a && path != "/login" then UploadPage
      else LoginPage
  {
  }

  // ----- The shell's state as written, and the defect it has -----

  /**
    * As written: the shell compares the stored value with `null` and reads
    * every other value by its truthiness.
    */
  function RenderAsWritten(state: JsValue, path: string): (v: View)
    ensures v == Loading <==> state == Null
    ensures v == UploadPage <==> Truthy(state) && path == "/upload"
  {
    if state == Null then Loading else Render(Some(Truthy(state)), path)
  }

  /**
    * Stored tokens whose `access_token` is JSON `null` make the effect store
    * `null` again, so the shell stays on "Loading..." for every path.
    */
  lemma NullAccessTokenStaysLoading(t: string, parse: string -> Parsed, path: string)
    requires t == "{\"access_token\":null,\"expires_in\":300}"
    requires parse(t) == Fields(Null, Number(300.0))
    ensures MountValueAsWritten(Some(t), None, parse) == Null
    ensures RenderAsWritten(MountValueAsWritten(Some(t), None, parse), path) == Loading
    ensures Render(Some(TokenValid(Some(t), None, parse)), path) != Loading
  {
  }

  /** Apart from a `null` token, the source and the boolean decision render alike. */
  lemma AsWrittenAgreesElsewhere(local: Option<string>, session: Option<string>, parse: string -> Parsed, path: string)
    requires MountValueAsWritten(local, session, parse) != Null
    ensures RenderAsWritten(MountValueAsWritten(local, session, parse), path)
      == Render(Some(TokenValid(local, session, parse)), path)
  {
  }

  /** The shell, holding `isAuthenticated` (None for null) and deciding it with `TokenValid`. */
  class App {
    var isAuthenticated: Option<bool>

    constructor ()
      ensures isAuthenticated == None
    {
      isAuthenticated := None;
    }

    /** The mount effect: read storage, parse, test the tokens, store the decision. */
    method MountEffect(local: Option<string>, session: Option<string>, parse: string -> Parsed)
      modifies this
      ensures isAuthenticated == Some(TokenValid(local, session, parse))
    {
      var stored := if Present(local) then local else session;
      if Present(stored) {
        match parse(stored.value)
        case Throws =>
          isAuthenticated := Some(false);
        case Fields(token, expires) =>
          isAuthenticated := Some(Truthy(token) && GreaterThanZero(expires));
      } else {
        isAuthenticated := Some(false);
      }
    }

    function CurrentView(path: string): (v: View)
      reads this
      ensures v == Loading <==> isAuthenticated.None?
    {
      Render(isAuthenticated, path)
    }
  }
}
