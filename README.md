# Login form submit handler

This project models `handleLogin`, the submit handler of the notes application's
Login page (`Frontend/src/pages/Login/Login.jsx`), and proves what it does on
every branch.

The page holds three pieces of state: `email`, `password` and `error`.
`error` starts as `null`, modelled as `None`.
The handler runs in two steps.

- **Submit** checks, in this order, that the email is non-empty, that it passes
  `validateEmail`, and that the password is non-empty. The first failing check
  sets one of three fixed messages and stops. When all three pass, the error is
  set to `""` and one POST to `/login` carrying `{email, password}` is issued.
- **Resolve** runs once the awaited request settles.
  - A success whose `response.data.accessToken` is present and non-empty writes
    it to `localStorage` under `"token"`, then asks the router for `/dashboard`.
  - A success without a token does nothing. The source behaves this way,
    possibly by oversight, and the model keeps it.
  - A failure shows `error.response.data.message` when it is present and
    non-empty. Otherwise it shows "An Unexpected error occurred. Please try again."

The model has two layers. The first is pure, in `login.dfy`:
- a `Form` value that holds the component state, the store (a map), a log of
  outward events (requests, store writes, navigations) and the number of
  requests still in flight;
- the step functions `Submitted` and `Resolved`;
- `Run`, which applies any sequence of typing, submits and server replies;
- an invariant `Inv` on the event log, proved to hold in every run.

The second layer is the class `LoginPage`, which is the component itself. Its
methods change the fields in the order the source does, and each is proved to
produce the state the matching step function gives.

Three collaborators are parameters:
- `validateEmail`, whose body is not part of this model, is any
  `string -> bool`;
- the server is the `Outcome` passed to `Resolve`, or a `Request -> Outcome`
  function for `HandleLogin`;
- the store is the `store` map, and navigation is the `Navigated` event.

JavaScript truthiness of a string field is modelled as "present and non-empty".

The fallback text reads "An Unexpected error occurred. Please try again." with a
capital U (Login.jsx:48).

The handler does not clear `error` before validating. Each failing check
overwrites it (Login.jsx:16, 20, 25), and it becomes `""` only when all checks
pass (Login.jsx:28).

## Model

| member | source | states |
|---|---|---|
| `Login.Check` | Frontend/src/pages/Login/Login.jsx:15-27 | no error is reported exactly when none of the three checks fails; a reported error is a failing check and every check ranked before it passes (email-empty, then format, then password-empty) |
| `Login.ErrorText` | Frontend/src/pages/Login/Login.jsx:16-25 | each validation message is non-empty, so the `error &&` guard always displays it |
| `Login.Token` | Frontend/src/pages/Login/Login.jsx:39 | a token is taken exactly when the outcome is a success with `data` present and a present, non-empty `accessToken`, and it is that string |
| `Login.FailureText` | Frontend/src/pages/Login/Login.jsx:45-49 | a present, non-empty server `message` is shown verbatim; every other failure shows the capital-U fallback; the result is never empty |
| `Login.Submitted` | Frontend/src/pages/Login/Login.jsx:15-35 | empty email gives "Please enter the email"; a non-empty, badly formatted email gives "Please enter a valid email address." whatever the password; a good email with an empty password gives "Please enter the password"; none of these posts anything; when all pass the error becomes `""` and exactly one `Posted` event with `/login`, the current email and password is appended; email, password and store never change |
| `Login.Resolved` | Frontend/src/pages/Login/Login.jsx:39-49 | a success with a non-empty token sets `store["token"]` to it and appends a store write followed by the navigation to `/dashboard`, with the error untouched; a success without data or token changes nothing but the in-flight count; a failure sets the error to the failure text and neither writes the store nor navigates |
| `Login.SubmitThenResolve` | Frontend/src/pages/Login/Login.jsx:28-49 | one passing submission followed by its outcome: the log gains the request, then (for a token) exactly one store write and exactly one navigation; the error stays `""` on success and becomes the failure text on failure |
| `Login.SubmittedKeepsInv` | Frontend/src/pages/Login/Login.jsx:15-35 | every request Submit logs carries credentials that passed all three checks |
| `Login.ResolvedKeepsInv` | Frontend/src/pages/Login/Login.jsx:39-49 | Resolve only logs a non-empty `"token"` write immediately followed by the dashboard navigation |
| `Login.StepKeepsInv` | Frontend/src/pages/Login/Login.jsx:13-51 | typing, submitting and a reply each preserve the event-log invariant |
| `Login.RunKeepsInv` | Frontend/src/pages/Login/Login.jsx:13-51 | after any sequence of typing, submits and replies, every request was validated and every navigation comes right after a store write of a non-empty token |
| `Login.ReachableSatisfiesInv` | Frontend/src/pages/Login/Login.jsx:9-51 | every state reachable from the freshly mounted page satisfies the event-log invariant |
| `Login.RunKeepsCredentials` | Frontend/src/pages/Login/Login.jsx:13-51 | a run with no typing leaves email and password as they were: the handler never changes them |
| `Login.RunStoresOnlyServerTokens` | Frontend/src/pages/Login/Login.jsx:39-41 | after any run the store is either unchanged or differs only at `"token"`, holding the access token of one of the server's replies that arrived while a request was in flight, so the handler actually resumed on it |
| `Login.LoginPage.constructor` | Frontend/src/pages/Login/Login.jsx:9-11 | the page starts with empty email and password, a `null` error, no events, nothing in flight |
| `Login.LoginPage.SetEmail` | Frontend/src/pages/Login/Login.jsx:66-68 | the email input's change sets `email` and nothing else |
| `Login.LoginPage.SetPassword` | Frontend/src/pages/Login/Login.jsx:73-75 | the password input's change sets `password` and nothing else |
| `Login.LoginPage.Submit` | Frontend/src/pages/Login/Login.jsx:15-35 | the new state is `Submitted` of the old; a request is returned exactly when validation passes, and it is the one logged, carrying the entered credentials |
| `Login.LoginPage.Resolve` | Frontend/src/pages/Login/Login.jsx:39-49 | the new state is `Resolved` of the old; the store write is logged before the navigation |
| `Login.LoginPage.HandleLogin` | Frontend/src/pages/Login/Login.jsx:13-51 | one whole submission against a server function: Submit, then Resolve on the server's outcome only if a request was posted; email and password are unchanged; the invariant is kept |

## Left out

- Rendering (the JSX of Login.jsx:52-91, `Navbar`, `Passwordinput`, `Link`) is not modelled. This includes the `error &&` display guard, apart from the proof that every message shown is non-empty.
- `e.preventDefault()` (Login.jsx:14) is a browser side effect and is not modelled.
- The HTTP transport (axios, its base URL and interceptors) is reduced to the `Outcome` value the request settles with.
- Concurrency. The `await` is modelled by an in-flight count and a separate `Resolve` step. Replies are not paired with the request they answer, so two rapid submissions may resolve in either order. `Run` ignores a reply when no request is in flight, because no suspended handler exists to receive it.
- `navigate("/dashboard")` (Login.jsx:41) unmounts the Login page in the program. The model ignores the unmount: `Run` lets the same page keep taking typing, submits and replies after a `Navigated` event. This only allows extra runs, so every property proved over all runs still holds.
- React applies `setError` updates asynchronously and batches them. The model applies each update at once, in program order.
- An exception thrown by `localStorage.setItem` or `navigate` inside the `try` would land in the same `catch` and show a failure message. The model treats both calls as always succeeding.
- JavaScript truthiness is modelled for string or missing values only. A token or message of another JSON type (a number, an object) is not modelled.
- `validateEmail` (from `utils/helper`) is not part of this model. It is a free `string -> bool` parameter.
- `Frontend/src/components/Cards/ProfileInfo.jsx` is purely presentational. Its only computation is `getInitials`, whose body is not part of this model, so it is not modelled.
