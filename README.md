# AppRecet client logic in Dafny

This project models the decision logic of the AppRecet mobile client:

- **Subscription screen.** It maps the backend's `tipo_suscripcion` to a plan id. It holds the one mutable slot `selectedPlan` and guards it so the current plan is never selected. It derives the upgrade and downgrade flags, picks the branch of "continue" and the button label, and decides which controls are disabled or shown.
- **Form validators.** There are three: name, password and email.
- **Service modules.** These are login, registration, payment and cancellation, and the recipe list. Each one turns the outcome of its HTTP call into the value its promise resolves to.

Each HTTP call is an input. `Http.Outcome` is `Resolved(status, body)` for a fulfilled promise, `Rejected(status)` for a rejection that carries `error.response`, and `NoResponse` for any other rejection. Alerts and console lines on the screen become `Effect` values. JavaScript values, truthiness, the member access `x.data` and template-literal string conversion are modelled in module `Js`.

Modules:

- `Js`: JavaScript values, `ToBoolean`, `||`, `.data`, `${}` conversion.
- `Subscriptions`: `src/Pages/Suscriptions.js`. The class `SubscriptionScreen` holds `selectedPlan`; the rest are functions of the current plan id and the selection.
- `Validations`: `src/utils/validations.js`.
- `Http`: the outcome, request and `{msg, data}` reply types.
- `Payment`, `Login`, `Register`, `Recipes`: one module per service file.

What the code does not do, and what the model therefore leaves out as well:

- There is no payment-session store, no reconciliation when the app returns to the foreground, no timeout and no guard against a payment already in progress.
- "Continue" only raises alerts and never calls `adquirePayment`. Cancelling only raises alerts and never calls `cancelSuscription`.
- An unknown tier gives the plan id `null`.
- `payment.js` resolves to `undefined` for every failure other than 400 and 500.
- No service checks its arguments before sending a request.

Points about JavaScript semantics the model makes explicit:

- `!selectedPlan` is true for `null` and also for the empty plan id `""`.
- `planMapping[x]` converts `x` to a string key first.
- Reading `response.data.data` throws a TypeError when the body is `null` or `undefined`. This happens inside the `try` block, so the `catch` block receives an error without `error.response`. Login then answers "Error inesperado", registration answers with the server message, and the recipe list throws a new `Error` with a fixed message in place of the caught one.
- Regex `\s` is the ECMAScript WhiteSpace and LineTerminator set: tab, line tab, form feed, space, NBSP, U+1680, U+2000–U+200A, U+202F, U+205F, U+3000, U+FEFF, LF, CR, U+2028 and U+2029.
- `password.length` counts UTF-16 code units (`Utf16Length`). The name and email patterns give the same answer whether they count code units or characters: every character the name class admits is in the BMP, and `[^\s@]` admits both halves of a surrogate pair.

## Model

| member | source | states |
|---|---|---|
| `Js.TemplateString` | src/services/recets/getRecets.js:7 | a string is substituted as itself and `undefined`/`null` become "undefined"/"null"; a number starts with '-' iff it is negative, and a non-negative safe integer prints as digits that read back to it |
| `Subscriptions.PlanFor` | src/Pages/Suscriptions.js:22-28 | the key "Basico" gives "basic", "Premium" gives "premium", and every other key gives no id (each direction) |
| `Subscriptions.MapUserPlan` | src/Pages/Suscriptions.js:18-31 | no user gives `null`; a user gives `isActive` true and the id mapped from `tipo_suscripcion` |
| `Subscriptions.TierMapping` | src/Pages/Suscriptions.js:18-31 | no user → `null`; "Basico" → `basic`; "Premium" → `premium`; any other tier string → id `null`; always active |
| `Subscriptions.SelectPlan` | src/Pages/Suscriptions.js:42-47 | pressing the current plan leaves the slot as it was, pressing another plan selects it, and the new value keeps the invariant "the selection is never the current plan" |
| `Subscriptions.SelectPlanIdempotentAndLastWins` | src/Pages/Suscriptions.js:42-47 | pressing a card twice equals pressing it once; a later press on a non-current plan overrides any earlier one |
| `Subscriptions.AfterPressesIsLastOtherPlan` | src/Pages/Suscriptions.js:36-47 | the slot starts `null` and changes only in `handleSelectPlan`, so after any presses it never holds the current id; it is `null` iff every press was on the current plan, and otherwise holds the last press on another plan |
| `Subscriptions.SubscriptionScreen.constructor` | src/Pages/Suscriptions.js:33-36 | the current plan is `mapUserPlan()` of the route's user, nothing is selected, and the invariant holds |
| `Subscriptions.SubscriptionScreen.HandleSelectPlan` | src/Pages/Suscriptions.js:42-47 | the selection is unchanged when `planId` is the current id and becomes `planId` otherwise; the invariant is kept |
| `Subscriptions.FlagsExclusive` | src/Pages/Suscriptions.js:39-40 | the upgrade and downgrade flags never hold together, and either one implies a selection other than the current plan |
| `Subscriptions.HandleContinue` | src/Pages/Suscriptions.js:49-66 | exactly one branch: "selection required" iff nothing truthy is selected, then upgrade iff the upgrade flag holds, downgrade iff the downgrade flag holds, otherwise a new selection that names the selected id |
| `Subscriptions.ContinueEffects` | src/Pages/Suscriptions.js:51-65 | each branch is console lines followed by one alert; "selection required" is that alert alone and stops; the upgrade and downgrade alerts are titled "Cambio de plan" with the Premium and Básico messages; the new-selection alert is titled "Nueva selección" and names the selected plan |
| `Subscriptions.ContinueAlertsDistinct` | src/Pages/Suscriptions.js:51-65 | two branches that raise the same final alert are the same branch, new selections of the same plan included |
| `Subscriptions.ContinueNeverNamesCurrentPlan` | src/Pages/Suscriptions.js:49-66 | under the slot's invariant, "continue" never reports the current plan as a new selection; when both ids are "basic" or "premium" it always upgrades or downgrades |
| `Subscriptions.ButtonTextMatchesContinue` | src/Pages/Suscriptions.js:89-98 | `getButtonText` gives the label of the branch `handleContinue` would take, and different branches other than "new selection" get different labels |
| `Subscriptions.ContinueButtonAgrees` | src/Pages/Suscriptions.js:167-176 | the continue button is disabled iff "continue" would ask for a selection, iff its label is "Selecciona un plan" |
| `Subscriptions.PlanCardGuard` | src/Pages/Suscriptions.js:113-122 | the selected plan's card is never disabled; a disabled card is the current plan, and pressing it would change nothing |
| `Subscriptions.CancelVisibleIffPremium` | src/Pages/Suscriptions.js:180 | since `isActive` is always true, the cancel button shows iff there is a user whose tier maps to premium |
| `Validations.Utf16LengthBounds` | src/utils/validations.js:20 | the code-unit length is between the character count and twice it, and equals it iff every character is in the BMP |
| `Validations.Name` | src/utils/validations.js:1-13 | empty input fails with the empty-field message before the format test; otherwise the input is valid iff it has at least 5 characters, each an ASCII letter or `\s`, and fails with the letters-only message otherwise |
| `Validations.WhitespaceNameIsValid` | src/utils/validations.js:2 | a whitespace-only name of length 5 or more is accepted |
| `Validations.Password` | src/utils/validations.js:16-24 | empty input fails with the empty-password message, fewer than 4 code units fails with the too-short message, and the password is valid iff it has at least 4 code units |
| `Validations.PasswordByCharacters` | src/utils/validations.js:20-23 | 4 or more characters are always accepted and fewer than 2 never are; for BMP-only input, valid iff the password has at least 4 characters |
| `Validations.Email` | src/utils/validations.js:26-36 | empty input fails with the empty-field message before the format test; otherwise valid iff the pattern test holds, and fails with the invalid-email message otherwise |
| `Validations.EmailPatternDecomposition` | src/utils/validations.js:27 | the pattern test holds iff the input is L "@" A "." B, with L, A and B non-empty and L and A.B free of whitespace and '@' (both directions) |
| `Validations.ValidEmailShape` | src/utils/validations.js:27 | a valid email contains exactly one '@' and no whitespace |
| `Validations.ValidIffNoMessage` | src/utils/validations.js:4-35 | for all three validators, `isValid` holds iff `message` is empty |
| `Validations.EmptyAlwaysRejected` | src/utils/validations.js:4-30 | the empty string is rejected by each validator with its empty-input message |
| `Payment.PaymentRequest` | src/services/payment/payment.js:4-8 | a POST to the payment endpoint whose body is exactly `{id_user}`, unchecked |
| `Payment.AdquirePayment` | src/services/payment/payment.js:4-28 | success returns the response body unchanged; 400 gives the missing-user-id reply and 500 the server reply, both with `data: null`; any other failure gives `undefined` |
| `Payment.AdquirePaymentUndefined` | src/services/payment/payment.js:6-25 | the result is `undefined` iff the call failed with neither 400 nor 500 or succeeded with an empty body, so those cases look the same; each failure reply has `data: null` |
| `Payment.CancelRequest` | src/services/payment/payment.js:31-39 | a POST to the cancel endpoint with body exactly `{id_user, id_suscripcion}`, where `id_suscripcion` is the `id_suscription` argument |
| `Payment.CancelSuscription` | src/services/payment/payment.js:31-61 | success gives the "cancelled" message with the response body as `data`; 400 gives the missing-ids reply and 500 the server reply, both with `data: null`; resolves to `undefined` iff the failure was neither 400 nor 500 |
| `Payment.CancelMessageClassifies` | src/services/payment/payment.js:41-58 | a defined reply carries the success message iff the call succeeded; every other reply has `data: null` |
| `Login.LoginRequest` | src/services/auth/Login.js:4-10 | a POST to the login endpoint with body exactly `{correo, contraseña}` |
| `Login.LoginService` | src/services/auth/Login.js:4-35 | always a reply with one of three messages: success iff the call resolved with a non-empty body, with `data` = `response.data.data \|\| null`; the credentials message iff status 401 or 404; `data: null` on every failure |
| `Login.LoginDataNullOrTruthy` | src/services/auth/Login.js:12-16 | `data` is never a falsy value other than `null`, and it is truthy iff the login succeeded and the body's `data` member is truthy, in which case it is that member |
| `Login.LoginUnexpected` | src/services/auth/Login.js:19-33 | the "unexpected" reply comes exactly from a status other than 401/404, no response, or a resolved call whose body is empty |
| `Register.RegisterRequest` | src/services/auth/Registro.js:4-11 | a POST to the register endpoint with body exactly `{nombre, correo, contraseña}` from the arguments |
| `Register.RegisterService` | src/services/auth/Registro.js:4-33 | always a reply: success iff the call resolved with a non-empty body, passing `response.data.data` through as it is; the email-in-use message iff status 409; otherwise the server message; `data: null` on every failure |
| `Register.RegisterDataNotCoalesced` | src/services/auth/Registro.js:14-17 | a success body without `data` yields `data: undefined`, where login gives `null` |
| `Recipes.RecipesUrl` | src/services/recets/getRecets.js:7 | the URL is the recipes endpoint, "/", then the template conversion of `id_user` |
| `Recipes.RecipesRequest` | src/services/recets/getRecets.js:7 | a GET of that URL with no body |
| `Recipes.RecipesUrlRecoversId` | src/services/recets/getRecets.js:4-7 | the URL determines a string id and gives a non-negative safe-integer id back; a missing id becomes "/undefined", the same URL as the string id "undefined" |
| `Recipes.GetListRecets` | src/services/recets/getRecets.js:4-30 | status 200 gives the "obtained" message with `response.data.data`; a resolved 404 gives `data: null` and the message with its leading space; any other resolved status gives the unexpected-status reply; it throws "Hubo un problema al intentar obtener los datos" iff the call was rejected or a 200 body was empty |
| `Recipes.RecipesReplyClassifies` | src/services/recets/getRecets.js:9-24 | a returned reply comes from a resolved call; its message identifies status 200 and status 404 (iff); only status 200 carries data |

## Left out

- Rendering, styles and navigation (`src/Pages/Suscriptions.js:101-341` apart from the disabled and visibility conditions, `App.js`, `src/Pages/Profile.js`, `src/Pages/Registro.js`): presentation only.
- The plan catalog `../mocks/Plans.json` and the endpoint configuration `../../config/endpoint` are not part of this model. Plan ids are opaque strings and each endpoint is a given string (`Http.Endpoints`).
- The axios transport: which statuses reject, JSON encoding of request bodies (for example, dropping `undefined` fields) and decoding of responses. The outcome of each call is an input.
- `console.log` and `console.error` in the services, because logging has no effect on results. On the screen, console lines and alerts are returned as `Effect` values and not performed, and the two cancellation constants record the dialog and what confirming it shows.
- Lone UTF-16 surrogates: a Dafny `char` is a Unicode scalar value, so strings containing one are not represented.
- Numbers in `Js.Value` are the safe integers, from -(2^53 - 1) to 2^53 - 1. Larger numbers, which JavaScript prints rounded and from 1e21 in exponent form, are not represented, and neither are fractions, `NaN` or `-0`. So `Recipes.RecipesUrl` and `Js.TemplateString` do not model the URL built for such an id.
- A key in `planMapping` that names an inherited `Object.prototype` property yields a function in JavaScript, or for `__proto__` the object `Object.prototype`. The model gives `None` instead, because every comparison the screen makes treats both alike; only the subtitle text, which is rendering, differs.
- Validator arguments are strings; `null`/`undefined` inputs (also rejected by `!x` with the empty-input message) are not modelled.
- Async scheduling and React re-rendering: the current plan is computed once from the route parameters, as every render computes the same value.
