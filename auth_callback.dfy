/** The sign-in callback: it exchanges the one-time code for a session,
    settles the user's role (provisioning a client profile for the contact of
    a won deal), sets the `user_role` cookie the proxy reads, and redirects to
    the role's landing page (app/auth/callback/route.ts). */
module AuthCallback {
  import opened Common
  import Proxy

  /** The signed-in user as the auth service reports it. */
  datatype User = User(id: string, email: Option<string>)

  /** A row of the `profiles` table; `role` is "" when the column is null or empty. */
  datatype Profile = Profile(id: string, email: string, role: string, companyName: Option<string>)

  /** The columns of a `deals` row that the callback queries. */
  datatype DealRow = DealRow(id: string, email: Option<string>, stage: string, companyName: Option<string>)

  const DefaultRole: string := "user"
  const ClientRole: string := "client"
  const RoleCookieName: string := "user_role"

  /** One week, in seconds. */
  const RoleCookieMaxAge: int := 60 * 60 * 24 * 7

  const AuthErrorPath: string := "/login?error=auth-code-error"

  /** The deal lookup `.eq("email", email).eq("stage", "won").limit(1)`:
      the first won deal with that contact email, if any. */
  function FindWonDeal(deals: seq<DealRow>, email: string): (r: Option<DealRow>)
    ensures r.Some? ==> r.value in deals && r.value.email == Some(email) && r.value.stage == "won"
    ensures r.None? ==> forall d :: d in deals ==> !(d.email == Some(email) && d.stage == "won")
  {
    if deals == [] then None
    else if deals[0].email == Some(email) && deals[0].stage == "won" then Some(deals[0])
    else FindWonDeal(deals[1..], email)
  }

  /** The user has an id and a non-empty email, so the profile lookup runs. */
  predicate HasEmail(user: Option<User>)
  {
    user.Some? && Truthy(user.value.email)
  }

  /** The role a callback settles on, given the profiles and deals it finds. */
  function ResolvedRole(profiles: map<string, Profile>, deals: seq<DealRow>, user: Option<User>): (role: string)
    ensures role != ""
    ensures !HasEmail(user) ==> role == DefaultRole
    ensures HasEmail(user) && user.value.id in profiles && profiles[user.value.id].role != "" ==>
              role == profiles[user.value.id].role
    ensures HasEmail(user) && user.value.id in profiles && profiles[user.value.id].role == "" ==>
              role == DefaultRole
    ensures role == ClientRole && !(HasEmail(user) && user.value.id in profiles) ==>
              HasEmail(user) && exists d :: d in deals && d.email == user.value.email && d.stage == "won"
    ensures HasEmail(user) && user.value.id !in profiles ==>
              (role == ClientRole <==> exists d :: d in deals && d.email == user.value.email && d.stage == "won")
    ensures HasEmail(user) && user.value.id !in profiles && role != ClientRole ==> role == DefaultRole
  {
    if !HasEmail(user) then DefaultRole
    else
      var u := user.value;
      if u.id in profiles then
        if profiles[u.id].role != "" then profiles[u.id].role else DefaultRole
      else if FindWonDeal(deals, u.email.value).Some? then ClientRole
      else DefaultRole
  }

  /** The `profiles` table after a callback. The insert's outcome is not
      checked, so `insertSucceeds` only decides whether the row appears. */
  function ProfilesAfter(profiles: map<string, Profile>, deals: seq<DealRow>, user: Option<User>,
                         insertSucceeds: bool): (after: map<string, Profile>)
    ensures profiles.Keys <= after.Keys
    ensures forall id :: id in profiles ==> after[id] == profiles[id]
    ensures after != profiles ==>
              && HasEmail(user) && user.value.id !in profiles
              && after.Keys == profiles.Keys + {user.value.id}
              && after[user.value.id].id == user.value.id
              && Some(after[user.value.id].email) == user.value.email
              && after[user.value.id].role == ClientRole
              && (exists d :: d in deals && d.email == user.value.email && d.stage == "won"
                                && after[user.value.id].companyName == d.companyName)
              && ResolvedRole(profiles, deals, user) == ClientRole
    ensures (&& ResolvedRole(profiles, deals, user) == ClientRole && HasEmail(user)
             && user.value.id !in profiles && insertSucceeds) ==> after != profiles
    ensures !insertSucceeds ==> after == profiles
  {
    if HasEmail(user) && user.value.id !in profiles && insertSucceeds then
      var u := user.value;
      var won := FindWonDeal(deals, u.email.value);
      if won.Some? then profiles[u.id := Profile(u.id, u.email.value, ClientRole, won.value.companyName)]
      else profiles
    else profiles
  }

  /** The landing page of a role. */
  function FinalUrl(role: string): (url: string)
    ensures role == "admin" ==> url == "/admin/dashboard"
    ensures role == "employee" ==> url == "/admin/calendar/posts"
    ensures role != "admin" && role != "employee" ==> url == "/dashboard"
  {
    if role == "admin" then "/admin/dashboard"
    else if role == "employee" then "/admin/calendar/posts"
    else "/dashboard"
  }

  datatype Cookie = Cookie(name: string, value: string, path: string, httpOnly: bool, sameSite: string, maxAge: int)

  /** The redirect the callback answers with, and the cookie it sets, if any. */
  datatype CallbackResponse = CallbackResponse(location: string, setCookie: Option<Cookie>)

  /** The cookie that carries the resolved role. */
  function RoleCookie(role: string): Cookie
  {
    Cookie(RoleCookieName, role, "/", true, "lax", RoleCookieMaxAge)
  }

  /** Every landing page except the employee's is one the proxy lets the new
      `user_role` cookie reach. */
  lemma LandingPageAdmitted(role: string)
    requires role != "" && role != "employee"
    ensures Proxy.Proxy(FinalUrl(role), Some(role)) == Proxy.Next
  {
    Proxy.AdminPrefixFacts();
  }

  /** An employee is sent to the posts calendar, which lies under `/admin`,
      so the proxy turns the employee away to `/dashboard`. */
  lemma EmployeeLandingRedirected()
    ensures Proxy.Proxy(FinalUrl("employee"), Some("employee")) == Proxy.Redirect("/dashboard", false)
  {
  }

  /** The sign-in error page is not public: without a cookie the proxy sends it to `/`. */
  lemma ErrorLandingRedirectedHome()
    ensures Proxy.Proxy("/login", None) == Proxy.Redirect("/", true)
  {
  }

  /** The backing store of the callback. */
  class Store {
    var profiles: map<string, Profile>
    var deals: seq<DealRow>

    constructor (profiles: map<string, Profile>, deals: seq<DealRow>)
      ensures this.profiles == profiles && this.deals == deals
    {
      this.profiles := profiles;
      this.deals := deals;
    }

    /** Steps 2 and 3 of the callback: find the user's role, inserting a
        client profile for a user with no profile whose email is the contact
        of a won deal. */
    method ResolveRole(user: Option<User>, insertSucceeds: bool) returns (role: string)
      modifies this`profiles
      ensures role == ResolvedRole(old(profiles), deals, user)
      ensures profiles == ProfilesAfter(old(profiles), deals, user, insertSucceeds)
    {
      role := DefaultRole;
      if user.Some? && Truthy(user.value.email) {
        var u := user.value;
        var email := u.email.value;
        var profile := if u.id in profiles then Some(profiles[u.id]) else None;
        if profile.Some? && profile.value.role != "" {
          role := profile.value.role;
        } else if profile.None? {
          var wonDeal := FindWonDeal(deals, email);
          if wonDeal.Some? {
            if insertSucceeds {
              profiles := profiles[u.id := Profile(u.id, email, ClientRole, wonDeal.value.companyName)];
            }
            role := ClientRole;
          }
        }
      }
    }

    /** `GET /auth/callback`. `code` is the query parameter, `exchanged` says
        whether exchanging it for a session reported no error, and `user` is
        what the auth service then returns. */
    method Callback(origin: string, code: Option<string>, exchanged: bool, user: Option<User>,
                    insertSucceeds: bool) returns (response: CallbackResponse)
      modifies this`profiles
      ensures !(Truthy(code) && exchanged) ==>
                response == CallbackResponse(origin + AuthErrorPath, None) && profiles == old(profiles)
      ensures Truthy(code) && exchanged ==>
                var role := ResolvedRole(old(profiles), deals, user);
                && response == CallbackResponse(origin + FinalUrl(role), Some(RoleCookie(role)))
                && profiles == ProfilesAfter(old(profiles), deals, user, insertSucceeds)
    {
      if Truthy(code) && exchanged {
        var role := ResolveRole(user, insertSucceeds);
        response := CallbackResponse(origin + FinalUrl(role), Some(RoleCookie(role)));
        return;
      }
      response := CallbackResponse(origin + AuthErrorPath, None);
    }
  }
}
