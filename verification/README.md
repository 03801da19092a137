# Session middleware of the portfolio web client

This project models `updateSession`, the Next.js middleware of the portfolio
web client that runs before every route. The middleware does three things:

- it lets the session provider (Supabase) refresh the session, which may call
  back into `setAll` to write refreshed cookies;
- it decides, from the request path and the signed-in user, whether the
  request passes through or is redirected;
- it returns the response.

Modules:

- `Wrappers`: the `Option` datatype.
- `Cookies`: the `setAll` fold. The request jar gets name to value. A response
  jar gets name to (value, options). A later entry with the same name
  overwrites an earlier one.
- `RouteGuard`: the four ordered guards and the default pass-through. They are
  the webhook exemption, the admin gate, anonymous protection and the
  signed-in bounce. Prefix tests are string prefix tests (`<=` on sequences),
  so `/consolex` is under `/console`. The three onboarding pages are matched
  exactly.
- `Middleware`: the composition. The pass-through response starts out built
  from the request. Every `setAll` call writes the request cookies and
  replaces that response with a fresh one that sets the call's cookies. Only
  the pass-through branches return it. The redirect branches return new
  responses that set no cookies.

Two details of the code are stated as written:

- The admin gate (`client/lib/supabase/middleware.ts:47`) tests only that the
  role is not `"super-admin"`, so it also fires when nobody is signed in. No
  outcome depends on this: the anonymous guard at line 55 would send such a
  visitor to the same sign-in page (`AnonymousTable`).
- The comment at lines 72-83 asks that any new response copy the refreshed
  cookies. The redirects at lines 50, 61 and 69 are built with
  `NextResponse.redirect(...)` and copy none (`RedirectDropsRefresh`).

Modelling choices:

- The user that `supabase.auth.getUser()` returns is an input,
  `Option<User>`. The role claim `user.app_metadata.role` is an
  `Option<string>`. A role that is missing or is not a string behaves like any
  role other than `"super-admin"`.
- The `setAll` calls that the provider makes while it looks up the user are an
  input: a sequence of cookie lists, possibly empty.
- `NextResponse.next({ request })` is modelled as a response that forwards
  the request's cookies as they are when it is built.

## Model

| member | source | states |
|---|---|---|
| `Cookies.OverwriteMeaning` | client/lib/supabase/middleware.ts:17-27 | Applying a cookie list in order adds exactly the listed names to the jar. Each listed name ends with the image of its last entry. Every other key keeps its old value. |
| `Cookies.OverwriteAppend` | client/lib/supabase/middleware.ts:18-20 | Applying two lists one after the other equals applying their concatenation. |
| `Cookies.SetOnRequestMeaning` | client/lib/supabase/middleware.ts:18-20 | On the request, each listed name maps to the value of its last entry and the options are dropped. Names not listed keep their values. The jar gains exactly the listed names. |
| `Cookies.SetOnFreshResponseMeaning` | client/lib/supabase/middleware.ts:21-26 | A fresh response sets exactly the listed names, each to the value and options of its last entry. |
| `Middleware.SetAll` | client/lib/supabase/middleware.ts:17-27 | One callback updates the request cookies (last entry wins, others unchanged). It replaces the pass-through response with one that forwards the updated request and sets exactly the listed cookies. |
| `Middleware.RefreshAccumulatesRequest` | client/lib/supabase/middleware.ts:17-20 | Over several callbacks, the request cookies equal one pass over all their entries in order. |
| `Middleware.RefreshKeepsLastResponse` | client/lib/supabase/middleware.ts:5-27 | With no callback the initial response is kept. Otherwise the response sets exactly the last callback's cookies, because each callback discards the previous response. |
| `Middleware.PassThroughCarriesRefresh` | client/lib/supabase/middleware.ts:17-85 | On a pass-through decision the returned response forwards every refreshed request cookie. It sets exactly the names of the last `setAll` call, with their last values and options. |
| `Middleware.PassThroughWithoutRefresh` | client/lib/supabase/middleware.ts:5-85 | On a pass-through decision with no refresh, the response is the initial one: the untouched request and no cookies. |
| `Middleware.RedirectDropsRefresh` | client/lib/supabase/middleware.ts:46-70 | The response is a redirect exactly when the decision is. A redirect goes to the decided target and sets no cookie, whatever was refreshed. |
| `Middleware.OnlyPassThroughSetsCookies` | client/lib/supabase/middleware.ts:42-85 | A response that sets any cookie comes from a pass-through decision. Webhook traffic always gets the refreshed pass-through response. |
| `RouteGuard.WebhookExempt` | client/lib/supabase/middleware.ts:42-44 | Any path starting with `/api/webhooks` passes through, whatever the user or role. |
| `RouteGuard.AdminGate` | client/lib/supabase/middleware.ts:46-51 | A path starting with `/console/admin` redirects to `/auth/sign-in` whenever the user is not a super-admin, including when nobody is signed in. |
| `RouteGuard.SuperAdminAdmitted` | client/lib/supabase/middleware.ts:46-85 | A signed-in super-admin passes through everywhere under `/console/admin`. |
| `RouteGuard.AnonymousProtected` | client/lib/supabase/middleware.ts:53-62 | With nobody signed in, any path starting with `/console` and the three onboarding pages redirect to `/auth/sign-in`. |
| `RouteGuard.OnboardingIsExact` | client/lib/supabase/middleware.ts:56-58 | The onboarding pages are exact matches: any strictly longer path that begins with one of them passes through for an anonymous visitor. |
| `RouteGuard.SignedInBounced` | client/lib/supabase/middleware.ts:64-70 | A signed-in user of any role on `/auth/sign-in` or `/auth/sign-up` is redirected to `/`. |
| `RouteGuard.DecisionTargets` | client/lib/supabase/middleware.ts:42-85 | Every decision is pass-through, a redirect to `/auth/sign-in` or a redirect to `/`. |
| `RouteGuard.DecisionTable` | client/lib/supabase/middleware.ts:42-85 | The full decision over plain path and user facts, independent of guard order: anonymous visitors go to sign-in on `/console...` and the three onboarding pages; signed-in non-super-admins go to sign-in under `/console/admin`; signed-in users go to `/` from sign-in and sign-up; everything else passes through. |
| `RouteGuard.AnonymousTable` | client/lib/supabase/middleware.ts:42-62 | With nobody signed in, the decision is the sign-in page exactly for paths under `/console` and the onboarding pages, and never `/`. |
| `RouteGuard.SignedInTable` | client/lib/supabase/middleware.ts:42-70 | For a signed-in user, the decision is the sign-in page exactly for a non-super-admin under `/console/admin`. It is `/` exactly on the sign-in and sign-up pages. |
| `RouteGuard.RedirectsSettle` | client/lib/supabase/middleware.ts:46-70 | Following a redirect with the same user never loops. The target passes through, or redirects once more to `/`, which passes through. |
| `RouteGuard.Examples` | client/lib/supabase/middleware.ts:42-70 | Concrete requests: an anonymous visit to `/console/admin/users`, an anonymous webhook call, a member on the sign-in page, `/auth/portfolio-resume` anonymously, and `/consolex` anonymously. |

## Left out

- The `createServerClient` construction, the `getUser()` network round trip and the environment variables it reads: the user and the `setAll` calls it triggers are inputs. A failure of that call is not modelled.
- The `getAll` callback (line 14-16) only reads the request cookies for the provider, so it has no model of its own.
- URL resolution: a redirect is built as `new URL(target, request.url)`; the model keeps only the target path, and the request path is `request.nextUrl.pathname` taken as a string.
- How the framework's cookie store normalises cookie options (default path, `maxAge` to expiry): options are kept as given.
- Everything in a Next.js response other than its cookies and, for a pass-through, the forwarded request cookies (headers, status, body), and the serialisation of cookies into headers.
- The profile, experience and link forms (`client/app/console/...`): UI wiring around a form library, schema validation, mutations and toasts. Their one branch, the create-record quota guard, depends on a privileges hook that is not part of this model.
- `client/constants/dropdowns/languages.ts`, `client/interfaces/user.ts` and `client/constants/apico.ts`: static data, type declarations and a URL constant, with no behaviour.
