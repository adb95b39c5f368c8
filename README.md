# Agency portal: access routing, pipeline board and sign-in callback in Dafny

This project models the pieces of the agency-management portal that make
decisions of their own, and proves what they promise:

- **Route access** (`proxy.ts`): from the request path and the `user_role`
  cookie, the proxy lets a page request through, sends a visitor without a role
  to the login page `/` (deleting the cookie), sends a signed-in visitor away
  from `/` to the dashboard of their role, and keeps every role except `admin`
  out of paths that start with `/admin`. Module `Proxy` (`proxy.dfy`) proves
  that the decision is exactly an access policy stated on its own
  (`MayAccess`), that public routes match by exact equality, that an empty
  cookie counts as no cookie, and that no redirect leads to another redirect.
- **Pipeline board** (`components/pipeline/pipeline-board.tsx`): the deals of
  the sales pipeline shown in one column per stage, each column headed by the
  sum of its deal values, and the drag-and-drop handler that moves a deal to
  another column, asks the server to persist the move, and opens the "deal
  won" dialog. Module `Pipeline` (`pipeline.dfy`) has the column filter and the
  totals as functions, the board state as a class whose methods are the
  handlers, and lemmas that columns keep list order and partition the deals,
  that a move relocates the dragged deal and touches nothing else, and that a
  move between columns leaves the sum of all column totals unchanged.
- **Sign-in callback** (`app/auth/callback/route.ts`): after the one-time code
  is exchanged for a session, the role is `user` unless the user's profile has
  a role, and a user without a profile whose email is the contact of a won deal
  gets a `client` profile. The role goes into the `user_role` cookie, and the
  response redirects to the role's landing page. Module `AuthCallback`
  (`auth_callback.dfy`) models the profile and deal tables as a `Store` object
  whose methods are the callback's steps, specified by the functions
  `ResolvedRole` and `ProfilesAfter`. It also relates the callback to the
  proxy: every landing page except the employee's is admitted by the proxy
  with the new cookie, and the employee's (`/admin/calendar/posts`) is not.
- **Sidebar highlighting** (`components/AdminSidebarUsage.tsx`): a link is
  active on its own page and below it on a `/` boundary. Module `Sidebar`
  (`sidebar.dfy`) proves that reading, and that the calendar group opens
  whenever one of its two entries is active, which are never active together.
- **Required configuration** (`utils/supabase/env.ts`): a value from a
  primary environment variable, else from a fallback, else an error naming
  both. Module `Env` (`env.dfy`).

`common.dfy` holds the `Option` type and `Truthy`, the application's test of
an optional string (present and not empty).

The model follows the code on three points. The optimistic move is never
rolled back. If the awaited server action rejects, the handler stops after the
move and the won dialog does not open; if the action resolves, for instance
after logging a database error instead of throwing, the handler goes on and
opens the dialog. A stage is any string, and a deal whose stage is not a
column id shows in no column. The won dialog receives the whole dragged deal
with stage `won`.

## Model

| member | source | states |
|---|---|---|
| `Env.GetRequiredEnv` | utils/supabase/env.ts:1-16 | a non-empty primary wins; an undefined primary falls back to a non-empty fallback; the error happens exactly when the primary is `""` or both are unusable, and carries the fixed message; a returned value is never empty |
| `Env.MissingMessageNamesBothKeys` | utils/supabase/env.ts:9-13 | the error message contains both the primary and the fallback variable name |
| `Env.FromEnvironment` | utils/supabase/env.ts:18-29 | a setting (its two instances are `Env.SupabaseUrl` and `Env.SupabaseAnonKey`: the backend URL and the anonymous key) is, when found, the non-empty value of its primary variable, or of its fallback when the primary is unset; a non-empty primary is always found, and so is a non-empty fallback when the primary is unset; otherwise the error names both variables |
| `Proxy.FindRoute` | proxy.ts:13 | a found route is in the list and has exactly the requested path; no route is found only when no route has that path |
| `Proxy.Proxy` | proxy.ts:11-53 | pass-through exactly when the access policy allows it; no role on a private path redirects to `/` and deletes the cookie; no role on `/` or `/auth/callback` passes; a role on `/` goes to `/admin/dashboard` for admin, else `/dashboard`; a role on `/auth/callback` passes; a non-admin role on an `/admin` prefix goes to `/dashboard`; admin always passes on `/admin*`; only a role-less request has its cookie deleted |
| `Proxy.PublicRoutesMatchExactly` | proxy.ts:4-13 | a public route is found exactly for `/` and `/auth/callback`; `/auth/callback/x` is private |
| `Proxy.EmptyRoleCookieIsAbsent` | proxy.ts:18-21 | an empty `user_role` cookie gives the same decision as no cookie, on every path |
| `Proxy.NoRedirectLoop` | proxy.ts:9-50 | following any redirect, with the cookie it leaves, reaches a page that passes |
| `Sidebar.IsActiveLink` | components/AdminSidebarUsage.tsx:50-51 | a link is active on its own url; an active link's url is a prefix of the pathname, followed there by `/` unless the two are equal; the full segment-match reading is proved in `ActiveLinkIsSegmentPrefix` |
| `Sidebar.ActiveLinkIsSegmentPrefix` | components/AdminSidebarUsage.tsx:50-51 | a link is active exactly when the pathname is its url or its url followed by `/` and any rest |
| `Sidebar.StringPrefixIsNotEnough` | components/AdminSidebarUsage.tsx:50-51 | `/admin/calendarX` starts with `/admin/calendar` yet does not activate it |
| `Sidebar.ChildActiveImpliesParentActive` | components/AdminSidebarUsage.tsx:50-51 | a pathname that activates a link below `url` also activates `url` |
| `Sidebar.CalendarGroupFacts` | components/AdminSidebarUsage.tsx:112-151 | if Postagens or Reuniões is active the calendar link is active; the two are never active together |
| `Sidebar.View` | components/AdminSidebarUsage.tsx:94-151 | one flag per main item equal to its active state; the calendar group's default-open flag and the Postagens and Reuniões flags are the active states of `/admin/calendar`, `/admin/calendar/posts` and `/admin/calendar/meetings`; the group opens by default whenever one of its entries is highlighted; never both entries highlighted |
| `Pipeline.StagesAreDistinct` | components/pipeline/pipeline-board.tsx:102 | no column id of the board occurs twice |
| `Pipeline.Column` | components/pipeline/pipeline-board.tsx:103 | a column is no longer than the deal list and holds only deals of the list with the column's stage |
| `Pipeline.ColumnMembership` | components/pipeline/pipeline-board.tsx:103 | a deal is in a column exactly when it is in the list with that stage |
| `Pipeline.ColumnOfConcat` | components/pipeline/pipeline-board.tsx:103 | the column of a concatenation is the concatenation of the columns, so columns keep list order |
| `Pipeline.ColumnsPartitionDeals` | components/pipeline/pipeline-board.tsx:102-103 | a deal with a column stage is in some column, never in two, and a deal with any other stage is in none |
| `Pipeline.Total` | components/pipeline/pipeline-board.tsx:148 | no deals total 0 and one deal totals its own value; additivity and sign of the fold are proved in `TotalOfConcat` and `NonNegativeTotal` |
| `Pipeline.TotalOfConcat` | components/pipeline/pipeline-board.tsx:148 | the total of a concatenation is the sum of the totals |
| `Pipeline.ColumnTotal` | components/pipeline/pipeline-board.tsx:148 | an empty column totals 0; with non-negative values a total is non-negative |
| `Pipeline.NonNegativeTotal` | components/pipeline/pipeline-board.tsx:148 | deals of non-negative value have a non-negative total |
| `Pipeline.ColumnsTotalCons` | components/pipeline/pipeline-board.tsx:103-148 | over distinct columns, one deal adds its value to the sum of the column totals exactly when its stage is one of them |
| `Pipeline.MoveDeal` | components/pipeline/pipeline-board.tsx:65-69 | same length and order; every deal with the dragged id has the new stage and every other deal is unchanged |
| `Pipeline.MoveRelocatesDeal` | components/pipeline/pipeline-board.tsx:65-103 | after a move, the target column holds the moved deal and its former column holds no deal with its id |
| `Pipeline.MoveConservesBoardTotal` | components/pipeline/pipeline-board.tsx:65-148 | a move between two columns leaves the sum of all column totals unchanged |
| `Pipeline.MoveToWonExample` | components/pipeline/pipeline-board.tsx:65-148 | two `new` deals, deal 1 moved to `won`: `new` holds deal 2, `won` holds deal 1, `negotiation` totals 0 |
| `Pipeline.PipelineBoard.constructor` | components/pipeline/pipeline-board.tsx:28-33 | the board starts with the initial deals, no dragged deal, no won deal, the dialog closed |
| `Pipeline.PipelineBoard.DragStart` | components/pipeline/pipeline-board.tsx:42-46 | the dragged deal becomes the active deal |
| `Pipeline.PipelineBoard.DragEnd` | components/pipeline/pipeline-board.tsx:48-78 | clears the active deal; a drop outside a column or on the same stage changes nothing and persists nothing; otherwise the deals become the move and the persistence call is made; the won dialog opens with the deal in stage `won` exactly when it moved to `won` and the awaited call resolved |
| `Pipeline.PipelineBoard.DragCancel` | components/pipeline/pipeline-board.tsx:80-85 | only the active deal is cleared |
| `Pipeline.PipelineBoard.SetWonOpen` | components/pipeline/pipeline-board.tsx:126-130 | the won dialog's open flag becomes the requested value |
| `AuthCallback.FindWonDeal` | app/auth/callback/route.ts:35-41 | a found deal is in the table, has the email and stage `won`; none is found only when no such deal exists |
| `AuthCallback.ResolvedRole` | app/auth/callback/route.ts:20-53 | never empty; `user` without a user or email; a profile's non-empty role wins; an empty profile role gives `user`; without a profile, `client` exactly when a won deal has the email, and `user` otherwise |
| `AuthCallback.ProfilesAfter` | app/auth/callback/route.ts:33-52 | existing profiles are never changed; the only possible change adds one profile for the user, with its id, email, role `client` and the company name of a won deal with that email, when the role resolves to `client`; a successful insert always adds it, and a failed insert changes nothing |
| `AuthCallback.FinalUrl` | app/auth/callback/route.ts:57-62 | `/admin/dashboard` for admin, `/admin/calendar/posts` for employee, `/dashboard` otherwise |
| `AuthCallback.LandingPageAdmitted` | app/auth/callback/route.ts:57-72 | with the cookie just set, the proxy lets the landing page of every non-empty role other than `employee` through |
| `AuthCallback.EmployeeLandingRedirected` | app/auth/callback/route.ts:60-61 | the proxy redirects an employee's landing page to `/dashboard` |
| `AuthCallback.ErrorLandingRedirectedHome` | app/auth/callback/route.ts:79 | the sign-in error page, reached without a cookie, is redirected to `/` |
| `AuthCallback.Store.constructor` | app/auth/callback/route.ts:24-41 | the store starts with the given profiles and deals |
| `AuthCallback.Store.ResolveRole` | app/auth/callback/route.ts:20-53 | the returned role is `ResolvedRole` of the old profiles and the profiles become `ProfilesAfter` |
| `AuthCallback.Store.Callback` | app/auth/callback/route.ts:4-80 | a missing code or failed exchange redirects to the error page with no cookie and no store change; otherwise it redirects to the resolved role's landing page and sets `user_role` to that role, path `/`, http-only, same-site lax, max age 604800 seconds |

## Left out

- The backend client (`exchangeCodeForSession`, `getUser`, the table queries and the insert) is foreign I/O: its answers are parameters (`exchanged`, `user`, `insertSucceeds`) and the tables are the fields of `AuthCallback.Store`.
- `.single()` on the profile lookup is modelled as a map lookup by id (the id is the key, so at most one row); an error from it is not modelled.
- `.limit(1)` on the won-deal lookup is modelled as the first match in table order; the database may return any match.
- Pipeline.PipelineBoard.DragEnd: runs as one atomic step, while in the handler the lines that open the won dialog run only after `await updateDealStage(...)` settles, and other drag handlers can run in between. Two overlapping moves to `won` can leave `wonDeal` holding the deal whose call settled last, not necessarily the later drop; the model does not capture that interleaving.
- The server action `updateDealStage` is not part of this model; the model records the call (`StageUpdate`) and whether it resolved (`persisted`).
- `didDragRef`, its 150 ms timer and `handleCardClick` with the details dialog: they depend on timing.
- The drag sensors, the drag overlay, all rendering, and the `Intl.NumberFormat` currency formatting.
- Deal values are whole numbers (cents); `Number(d.value)` on floating point or on a non-numeric value is not modelled.
- The proxy models only the path of a redirect target; the query string and host kept by `nextUrl.clone()` are left out, and so is the route matcher at proxy.ts:56, which is framework configuration.
- The cookie plumbing of utils/supabase/route.ts is foreign I/O.
- The finance chart, the deal card's staleness test (it reads the wall clock), and the dialogs and layout files are presentation only.
