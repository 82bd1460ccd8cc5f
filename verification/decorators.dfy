/**
 * The `role_required(*roles)` guard every protected handler sits behind:
 * anonymous users go to the login page, `admin` passes everywhere, anyone
 * else needs one of the listed roles or is sent back with a message.
 */
module Decorators {
  import opened Common

  /** `current_user` as the guard sees it. */
  datatype CurrentUser = Anonymous | Authenticated(roles: seq<string>)

  const AdminRole := "admin"
  const LoginMessage := "You must be logged in to access this page."
  const DashboardEndpoint := "main.dashboard"

  /** What the guard does with one request. */
  datatype Access =
      /** A `warning` flash and a redirect to the login page, carrying the requested url. */
    | RedirectToLogin(message: string, next: string)
      /** The decorated view runs. */
    | Allowed
      /** A `danger` flash and a redirect to the referrer, or the dashboard without one. */
    | Denied(message: string, target: string)

  /** `any(role in held for role in required)`. */
  function AnyHeld(held: seq<string>, required: seq<string>): (b: bool)
    ensures b <==> exists i :: 0 <= i < |required| && required[i] in held
  {
    if required == [] then false
    else required[0] in held || AnyHeld(held, required[1..])
  }

  /** Each required role wrapped in single quotes, in order. */
  function QuotedRoles(required: seq<string>): (q: seq<string>)
    ensures |q| == |required|
    ensures forall i :: 0 <= i < |required| ==> q[i] == "'" + required[i] + "'"
  {
    if required == [] then [] else ["'" + required[0] + "'"] + QuotedRoles(required[1..])
  }

  /** The flash shown on a refusal. */
  function DeniedMessage(required: seq<string>): string {
    "Access Denied. This action requires the " + Join(QuotedRoles(required), " or ") + " role."
  }

  /**
   * The guard's decision for `user` on a view that lists `required`,
   * requested at `url` from `referrer`.
   */
  function Guard(user: CurrentUser, required: seq<string>, url: string, referrer: Option<string>): (a: Access)
    ensures user.Anonymous? <==> a.RedirectToLogin?
    ensures a.RedirectToLogin? ==> a == RedirectToLogin(LoginMessage, url)
    ensures user.Authenticated? ==>
      (a == Allowed <==> AdminRole in user.roles || exists i :: 0 <= i < |required| && required[i] in user.roles)
    ensures a.Denied? ==> a.message == DeniedMessage(required)
    ensures a.Denied? ==> a.target == if Truthy(referrer) then referrer.value else DashboardEndpoint
  {
    match user
    case Anonymous => RedirectToLogin(LoginMessage, url)
    case Authenticated(roles) =>
      if AdminRole in roles then Allowed
      else if !AnyHeld(roles, required) then
        Denied(DeniedMessage(required), if Truthy(referrer) then referrer.value else DashboardEndpoint)
      else Allowed
  }

  /** An admin passes every guard, whatever roles the view lists. */
  lemma AdminPassesEverywhere(roles: seq<string>, required: seq<string>, url: string, referrer: Option<string>)
    requires AdminRole in roles
    ensures Guard(Authenticated(roles), required, url, referrer) == Allowed
  {
  }

  /** A view guarded by no roles at all admits admins only. */
  lemma NoRolesAdminsOnly(roles: seq<string>, url: string, referrer: Option<string>)
    ensures Guard(Authenticated(roles), [], url, referrer) == Allowed <==> AdminRole in roles
  {
  }

  /** Gaining roles never turns an admission into a refusal. */
  lemma MoreRolesStillAllowed(
    roles: seq<string>, more: seq<string>, required: seq<string>, url: string, referrer: Option<string>)
    requires forall r :: r in roles ==> r in more
    requires Guard(Authenticated(roles), required, url, referrer) == Allowed
    ensures Guard(Authenticated(more), required, url, referrer) == Allowed
  {
  }

  /** Listing more roles on a view never locks out a user it admitted. */
  lemma MoreRequiredStillAllowed(
    roles: seq<string>, required: seq<string>, extra: seq<string>, url: string, referrer: Option<string>)
    requires Guard(Authenticated(roles), required, url, referrer) == Allowed
    ensures Guard(Authenticated(roles), required + extra, url, referrer) == Allowed
  {
    if AdminRole !in roles {
      var i :| 0 <= i < |required| && required[i] in roles;
      assert (required + extra)[i] == required[i];
    }
  }

  /** The two roles of the dispatch form, quoted and joined. */
  lemma DispatchRolesJoined()
    ensures Join(QuotedRoles([AdminRole, "dispatch"]), " or ") == "'admin' or 'dispatch'"
  {
    var q := QuotedRoles([AdminRole, "dispatch"]);
    assert q[0] == "'admin'" && q[1] == "'dispatch'";
    assert q == ["'admin'", "'dispatch'"];
    assert Join(q, " or ") == "'admin'" + " or " + Join(q[1..], " or ");
  }

  /** The refusal on the dispatch form names both roles it accepts. */
  lemma DispatchDeniedMessage()
    ensures DeniedMessage([AdminRole, "dispatch"])
            == "Access Denied. This action requires the 'admin' or 'dispatch' role."
  {
    DispatchRolesJoined();
  }
}
