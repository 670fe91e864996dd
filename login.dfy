/**
 * The login form's submit handler (`handleLogin` of the Login page).
 *
 * The handler runs in two steps. Submit validates the entered credentials in a fixed
 * order and either shows one of three fixed error messages or clears the error and
 * posts one login request. Resolve is the continuation after the request's `await`:
 * a success carrying an access token stores it under "token" and then navigates to
 * the dashboard, and a failure shows the server's message or a fixed fallback.
 *
 * The pure part (Form, Submitted, Resolved, Run) is the specification. The class
 * LoginPage is the component itself, whose methods change its fields in the
 * source's order and are proved to follow the pure step functions.
 */
module Login {
  import opened Wrappers

  // ---------------------------------------------------------------------------
  // Constants of the handler
  // ---------------------------------------------------------------------------

  const EmailMissingText: string := "Please enter the email"
  const EmailInvalidText: string := "Please enter a valid email address."
  const PasswordMissingText: string := "Please enter the password"
  /** The fallback for a failure without a server message (capital U, as in the source). */
  const FallbackText: string := "An Unexpected error occurred. Please try again."
  const LoginPath: string := "/login"
  const TokenKey: string := "token"
  const DashboardPath: string := "/dashboard"

  // ---------------------------------------------------------------------------
  // Data model
  // ---------------------------------------------------------------------------

  /** The body of the POST request, with the endpoint it goes to. */
  datatype Request = Request(path: string, email: string, password: string)

  /** `response.data` of a successful request. */
  datatype LoginReply = LoginReply(accessToken: Option<string>)

  /** `error.response.data` of a failed request. */
  datatype ErrorBody = ErrorBody(message: Option<string>)

  /** `error.response` of a failed request; a network error has none. */
  datatype ErrorResponse = ErrorResponse(data: Option<ErrorBody>)

  /** How the awaited login request settled: resolved, or rejected with an error. */
  datatype Outcome =
    | Success(data: Option<LoginReply>)
    | Failure(response: Option<ErrorResponse>)

  /** What the world outside the component observes, in the order it happens. */
  datatype Event =
    | Posted(request: Request)             // the login request sent to the server
    | Stored(key: string, value: string)   // a write to the persistent key-value store
    | Navigated(path: string)              // a navigation request to the router

  /**
   * The component state (`email`, `password`, `error`) together with the store,
   * the log of outward events and the number of posted requests whose `await`
   * has not yet resumed.
   */
  datatype Form = Form(
    email: string,
    password: string,
    error: Option<string>,
    store: map<string, string>,
    events: seq<Event>,
    inFlight: nat)

  /** The freshly mounted page: empty fields and a `null` error, over whatever the store holds. */
  function Initial(store: map<string, string>): Form
  {
    Form("", "", None, store, [], 0)
  }

  // ---------------------------------------------------------------------------
  // Validation
  // ---------------------------------------------------------------------------

  datatype ValidationError = MissingEmail | InvalidEmailFormat | MissingPassword

  /** The order in which the checks run. */
  function Rank(v: ValidationError): nat
  {
    match v
    case MissingEmail => 0
    case InvalidEmailFormat => 1
    case MissingPassword => 2
  }

  /** Each check on its own, ignoring the others. */
  predicate Fails(v: ValidationError, email: string, password: string, validateEmail: string -> bool)
  {
    match v
    case MissingEmail => email == ""
    case InvalidEmailFormat => !validateEmail(email)
    case MissingPassword => password == ""
  }

  /** The short-circuiting validation cascade: the first failing check in rank order decides. */
  function Check(email: string, password: string, validateEmail: string -> bool): (r: Option<ValidationError>)
    ensures r.None? <==> forall v :: !Fails(v, email, password, validateEmail)
    ensures r.Some? ==>
      Fails(r.value, email, password, validateEmail) &&
      forall w :: Rank(w) < Rank(r.value) ==> !Fails(w, email, password, validateEmail)
  {
    if email == "" then
      assert Fails(MissingEmail, email, password, validateEmail); Some(MissingEmail)
    else if !validateEmail(email) then
      assert Fails(InvalidEmailFormat, email, password, validateEmail); Some(InvalidEmailFormat)
    else if password == "" then
      assert Fails(MissingPassword, email, password, validateEmail); Some(MissingPassword)
    else None
  }

  /** The message shown for a validation error; never empty, so the form always displays it. */
  function ErrorText(v: ValidationError): (s: string)
    ensures s != ""
  {
    match v
    case MissingEmail => EmailMissingText
    case InvalidEmailFormat => EmailInvalidText
    case MissingPassword => PasswordMissingText
  }

  // ---------------------------------------------------------------------------
  // Interpreting the outcome (JavaScript truthiness: a string counts when present and non-empty)
  // ---------------------------------------------------------------------------

  /** The access token of a success, when `response.data && response.data.accessToken` holds. */
  function Token(o: Outcome): (t: Option<string>)
    ensures t.Some? <==>
      o.Success? && o.data.Some? && o.data.value.accessToken.Some? && o.data.value.accessToken.value != ""
    ensures t.Some? ==> t.value == o.data.value.accessToken.value && t.value != ""
  {
    match o
    case Success(Some(LoginReply(Some(token)))) => if token != "" then Some(token) else None
    case _ => None
  }

  /** The message a failure shows: the server's own when there is one, else the fallback. */
  function FailureText(response: Option<ErrorResponse>): (s: string)
    ensures s != ""
    ensures response.Some? && response.value.data.Some? && response.value.data.value.message.Some?
            && response.value.data.value.message.value != ""
            ==> s == response.value.data.value.message.value
    ensures !(response.Some? && response.value.data.Some? && response.value.data.value.message.Some?
              && response.value.data.value.message.value != "")
            ==> s == FallbackText
  {
    match response
    case Some(ErrorResponse(Some(ErrorBody(Some(message))))) =>
      if message != "" then message else FallbackText
    case _ => FallbackText
  }

  // ---------------------------------------------------------------------------
  // The two steps of the handler
  // ---------------------------------------------------------------------------

  /** Submit: validate and either show an error or clear it and post the credentials. */
  function Submitted(f: Form, validateEmail: string -> bool): (g: Form)
    ensures g.email == f.email && g.password == f.password && g.store == f.store
    ensures f.email == "" ==> g == f.(error := Some(EmailMissingText))
    ensures f.email != "" && !validateEmail(f.email) ==> g == f.(error := Some(EmailInvalidText))
    ensures f.email != "" && validateEmail(f.email) && f.password == "" ==>
      g == f.(error := Some(PasswordMissingText))
    ensures f.email != "" && validateEmail(f.email) && f.password != "" ==>
      g == f.(error := Some(""),
              events := f.events + [Posted(Request(LoginPath, f.email, f.password))],
              inFlight := f.inFlight + 1)
  {
    match Check(f.email, f.password, validateEmail)
    case Some(v) => f.(error := Some(ErrorText(v)))
    case None =>
      f.(error := Some(""),
         events := f.events + [Posted(Request(LoginPath, f.email, f.password))],
         inFlight := f.inFlight + 1)
  }

  /** Resolve: the continuation after the awaited request settles with outcome `o`. */
  function Resolved(f: Form, o: Outcome): (g: Form)
    requires f.inFlight > 0
    ensures g.email == f.email && g.password == f.password && g.inFlight == f.inFlight - 1
    ensures o.Success? && o.data.Some? && o.data.value.accessToken.Some?
            && o.data.value.accessToken.value != "" ==>
      g.error == f.error &&
      g.store == f.store[TokenKey := o.data.value.accessToken.value] &&
      g.events == f.events + [Stored(TokenKey, o.data.value.accessToken.value), Navigated(DashboardPath)]
    ensures o.Success? && !(o.data.Some? && o.data.value.accessToken.Some?
                            && o.data.value.accessToken.value != "") ==>
      g == f.(inFlight := f.inFlight - 1)
    ensures o.Failure? ==>
      g.store == f.store && g.events == f.events && g.error == Some(FailureText(o.response))
  {
    var f' := f.(inFlight := f.inFlight - 1);
    match o
    case Success(_) =>
      (match Token(o)
       case Some(token) =>
         f'.(store := f.store[TokenKey := token],
             events := f.events + [Stored(TokenKey, token), Navigated(DashboardPath)])
       case None => f')
    case Failure(response) => f'.(error := Some(FailureText(response)))
  }

  /**
   * One submission that passes validation, followed by its outcome: the error is
   * cleared; a token is stored and navigation follows, exactly once each; a token-less
   * success leaves the cleared error and no write; a failure shows its message.
   */
  lemma SubmitThenResolve(f: Form, o: Outcome, validateEmail: string -> bool)
    requires f.email != "" && validateEmail(f.email) && f.password != ""
    ensures var g := Resolved(Submitted(f, validateEmail), o);
      var posted := f.events + [Posted(Request(LoginPath, f.email, f.password))];
      g.email == f.email && g.password == f.password && g.inFlight == f.inFlight &&
      (Token(o).Some? ==>
         g.error == Some("") && g.store == f.store[TokenKey := Token(o).value] &&
         g.events == posted + [Stored(TokenKey, Token(o).value), Navigated(DashboardPath)]) &&
      (o.Success? && Token(o).None? ==>
         g.error == Some("") && g.store == f.store && g.events == posted) &&
      (o.Failure? ==>
         g.error == Some(FailureText(o.response)) && g.store == f.store && g.events == posted)
  {
  }

  // ---------------------------------------------------------------------------
  // Runs: what users and the server can do to the page, in any order
  // ---------------------------------------------------------------------------

  datatype Action =
    | TypeEmail(text: string)      // the email input's onChange
    | TypePassword(text: string)   // the password input's onChange
    | Submit                       // the form's onSubmit, up to the request's await
    | Reply(outcome: Outcome)      // one in-flight request settles

  /** One action. A reply with no request in flight has no suspended handler to resume. */
  function Step(f: Form, a: Action, validateEmail: string -> bool): Form
  {
    match a
    case TypeEmail(text) => f.(email := text)
    case TypePassword(text) => f.(password := text)
    case Submit => Submitted(f, validateEmail)
    case Reply(o) => if f.inFlight > 0 then Resolved(f, o) else f
  }

  function Run(f: Form, actions: seq<Action>, validateEmail: string -> bool): Form
    decreases |actions|
  {
    if actions == [] then f else Run(Step(f, actions[0], validateEmail), actions[1..], validateEmail)
  }

  /**
   * What the event log may hold: every request carries credentials that passed all
   * three checks; every store write is of a non-empty token under "token" and is
   * followed at once by the navigation to the dashboard; every navigation goes to
   * the dashboard right after a store write.
   */
  predicate EventOk(events: seq<Event>, i: nat, validateEmail: string -> bool)
    requires i < |events|
  {
    match events[i]
    case Posted(r) =>
      r.path == LoginPath && r.email != "" && validateEmail(r.email) && r.password != ""
    case Stored(key, value) =>
      key == TokenKey && value != "" && i + 1 < |events| && events[i + 1] == Navigated(DashboardPath)
    case Navigated(path) =>
      path == DashboardPath && 0 < i && events[i - 1].Stored?
  }

  predicate Inv(f: Form, validateEmail: string -> bool)
  {
    forall i :: 0 <= i < |f.events| ==> EventOk(f.events, i, validateEmail)
  }

  /** Appending to the log keeps each earlier event's obligation. */
  lemma AppendKeepsEventOk(events: seq<Event>, extra: seq<Event>, i: nat, validateEmail: string -> bool)
    requires i < |events| && EventOk(events, i, validateEmail)
    ensures EventOk(events + extra, i, validateEmail)
  {
  }

  lemma SubmittedKeepsInv(f: Form, validateEmail: string -> bool)
    requires Inv(f, validateEmail)
    ensures Inv(Submitted(f, validateEmail), validateEmail)
  {
    var g := Submitted(f, validateEmail);
    forall i | 0 <= i < |f.events| ensures EventOk(g.events, i, validateEmail) {
      AppendKeepsEventOk(f.events, g.events[|f.events|..], i, validateEmail);
      assert g.events == f.events + g.events[|f.events|..];
    }
  }

  lemma ResolvedKeepsInv(f: Form, o: Outcome, validateEmail: string -> bool)
    requires f.inFlight > 0 && Inv(f, validateEmail)
    ensures Inv(Resolved(f, o), validateEmail)
  {
    var g := Resolved(f, o);
    forall i | 0 <= i < |f.events| ensures EventOk(g.events, i, validateEmail) {
      AppendKeepsEventOk(f.events, g.events[|f.events|..], i, validateEmail);
      assert g.events == f.events + g.events[|f.events|..];
    }
  }

  lemma StepKeepsInv(f: Form, a: Action, validateEmail: string -> bool)
    requires Inv(f, validateEmail)
    ensures Inv(Step(f, a, validateEmail), validateEmail)
  {
    match a
    case TypeEmail(_) =>
    case TypePassword(_) =>
    case Submit => SubmittedKeepsInv(f, validateEmail);
    case Reply(o) => if f.inFlight > 0 { ResolvedKeepsInv(f, o, validateEmail); }
  }

  /** No sequence of typing, submitting and replies ever breaks the event-log invariant. */
  lemma {:induction false} RunKeepsInv(f: Form, actions: seq<Action>, validateEmail: string -> bool)
    requires Inv(f, validateEmail)
    ensures Inv(Run(f, actions, validateEmail), validateEmail)
    decreases |actions|
  {
    if actions != [] {
      StepKeepsInv(f, actions[0], validateEmail);
      RunKeepsInv(Step(f, actions[0], validateEmail), actions[1..], validateEmail);
    }
  }

  /** From the freshly mounted page, every reachable log satisfies the invariant. */
  lemma {:induction false} ReachableSatisfiesInv(store: map<string, string>, actions: seq<Action>, validateEmail: string -> bool)
    ensures Inv(Run(Initial(store), actions, validateEmail), validateEmail)
  {
    RunKeepsInv(Initial(store), actions, validateEmail);
  }

  predicate IsTyping(a: Action)
  {
    a.TypeEmail? || a.TypePassword?
  }

  /** Only the inputs' onChange handlers change the credentials: the handler never does. */
  lemma {:induction false} RunKeepsCredentials(f: Form, actions: seq<Action>, validateEmail: string -> bool)
    requires forall k :: 0 <= k < |actions| ==> !IsTyping(actions[k])
    ensures Run(f, actions, validateEmail).email == f.email
    ensures Run(f, actions, validateEmail).password == f.password
    decreases |actions|
  {
    if actions != [] {
      assert !IsTyping(actions[0]);
      RunKeepsCredentials(Step(f, actions[0], validateEmail), actions[1..], validateEmail);
    }
  }

  /**
   * The handler writes only the "token" key, and the value there at the end is the
   * access token of one of the server's replies that the handler actually resumed on
   * (a request was in flight when it arrived).
   */
  lemma {:induction false} RunStoresOnlyServerTokens(f: Form, actions: seq<Action>, validateEmail: string -> bool)
    ensures var g := Run(f, actions, validateEmail);
      g.store == f.store ||
      exists k :: 0 <= k < |actions| && actions[k].Reply? && Token(actions[k].outcome).Some? &&
                  Run(f, actions[..k], validateEmail).inFlight > 0 &&
                  g.store == f.store[TokenKey := Token(actions[k].outcome).value]
    decreases |actions|
  {
    if actions != [] {
      var h := Step(f, actions[0], validateEmail);
      var g := Run(f, actions, validateEmail);
      assert g == Run(h, actions[1..], validateEmail);
      RunStoresOnlyServerTokens(h, actions[1..], validateEmail);
      assert h.store == f.store ||
             (actions[0].Reply? && Token(actions[0].outcome).Some? && f.inFlight > 0 &&
              h.store == f.store[TokenKey := Token(actions[0].outcome).value]);
      if g.store != h.store {
        var k :| 0 <= k < |actions[1..]| && actions[1..][k].Reply? && Token(actions[1..][k].outcome).Some? &&
                 Run(h, actions[1..][..k], validateEmail).inFlight > 0 &&
                 g.store == h.store[TokenKey := Token(actions[1..][k].outcome).value];
        assert actions[k + 1] == actions[1..][k];
        RunPrefixStep(f, actions, k, validateEmail);
        assert g.store == f.store[TokenKey := Token(actions[k + 1].outcome).value];
      } else if h.store != f.store {
        assert Run(f, actions[..0], validateEmail) == f;
      }
    }
  }

  /** Running the first k + 1 actions is one step followed by the next k. */
  lemma RunPrefixStep(f: Form, actions: seq<Action>, k: nat, validateEmail: string -> bool)
    requires k < |actions|
    ensures Run(f, actions[..k + 1], validateEmail) ==
            Run(Step(f, actions[0], validateEmail), actions[1..][..k], validateEmail)
  {
    assert actions[..k + 1][0] == actions[0];
    assert actions[..k + 1][1..] == actions[1..][..k];
  }

  // ---------------------------------------------------------------------------
  // The component
  // ---------------------------------------------------------------------------

  /** The Login page: its three state fields and the collaborators it acts on. */
  class LoginPage {
    /** The imported email-format check, whose body is not part of this model. */
    const validateEmail: string -> bool
    var email: string
    var password: string
    var error: Option<string>
    /** The browser's `localStorage`. */
    var store: map<string, string>
    /** Requests, store writes and navigations, in the order they happened. */
    var events: seq<Event>
    /** Requests posted whose `await` has not yet resumed. */
    var inFlight: nat

    function State(): Form
      reads this
    {
      Form(email, password, error, store, events, inFlight)
    }

    ghost predicate Valid()
      reads this
    {
      Inv(State(), validateEmail)
    }

    constructor (validateEmail: string -> bool, store: map<string, string>)
      ensures this.validateEmail == validateEmail
      ensures State() == Initial(store) && Valid()
    {
      this.validateEmail := validateEmail;
      email, password, error := "", "", None;
      this.store, events, inFlight := store, [], 0;
    }

    /** The email input's onChange. */
    method SetEmail(text: string)
      requires Valid()
      modifies this
      ensures Valid() && State() == Step(old(State()), TypeEmail(text), validateEmail)
    {
      email := text;
    }

    /** The password input's onChange. */
    method SetPassword(text: string)
      requires Valid()
      modifies this
      ensures Valid() && State() == Step(old(State()), TypePassword(text), validateEmail)
    {
      password := text;
    }

    /** `handleLogin` up to the request's `await`; returns the request it posted, if any. */
    method Submit() returns (request: Option<Request>)
      requires Valid()
      modifies this
      ensures Valid() && State() == Submitted(old(State()), validateEmail)
      ensures request.Some? <==> Check(old(email), old(password), validateEmail).None?
      ensures request.Some? ==> request.value == Request(LoginPath, email, password) && events == old(events) + [Posted(request.value)]
    {
      ghost var before := State();
      SubmittedKeepsInv(before, validateEmail);
      if email == "" {
        error := Some(EmailMissingText);
        return None;
      }
      if !validateEmail(email) {
        error := Some(EmailInvalidText);
        return None;
      }
      if password == "" {
        error := Some(PasswordMissingText);
        return None;
      }
      error := Some("");
      request := Some(Request(LoginPath, email, password));
      events := events + [Posted(request.value)];
      inFlight := inFlight + 1;
    }

    /** `handleLogin` after the awaited request settles with `outcome`. */
    method Resolve(outcome: Outcome)
      requires Valid() && inFlight > 0
      modifies this
      ensures Valid() && State() == Resolved(old(State()), outcome)
    {
      ghost var before := State();
      ResolvedKeepsInv(before, outcome, validateEmail);
      inFlight := inFlight - 1;
      match outcome
      case Success(data) =>
        if data.Some? && data.value.accessToken.Some? && data.value.accessToken.value != "" {
          var token := data.value.accessToken.value;
          store := store[TokenKey := token];
          events := events + [Stored(TokenKey, token)];
          events := events + [Navigated(DashboardPath)];
          assert events == before.events + [Stored(TokenKey, token), Navigated(DashboardPath)];
        }
      case Failure(response) =>
        if response.Some? && response.value.data.Some? && response.value.data.value.message.Some?
           && response.value.data.value.message.value != "" {
          error := Some(response.value.data.value.message.value);
        } else {
          error := Some(FallbackText);
        }
    }

    /**
     * The whole handler for one submission, with the server as a function from the
     * request to its outcome.
     */
    method HandleLogin(server: Request -> Outcome)
      requires Valid()
      modifies this
      ensures Valid()
      ensures email == old(email) && password == old(password)
      ensures State() ==
        var submitted := Submitted(old(State()), validateEmail);
        if Check(old(email), old(password), validateEmail).None?
        then Resolved(submitted, server(Request(LoginPath, old(email), old(password))))
        else submitted
    {
      var request := Submit();
      if request.Some? {
        Resolve(server(request.value));
      }
    }
  }
}
