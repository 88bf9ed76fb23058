/**
 * The navigation guard of `src/components/RouterHandler.tsx`: on every
 * (user, pathname) pair it decides which single page, if any, the router is
 * sent to. The effect's if-chain with early returns becomes one function; a
 * `Some(target)` result is the one `router.push(target)` of that run.
 */
module Router {
  import opened Wrappers
  import opened Auth

  const LoginPath: string := "/login"
  const SignupPath: string := "/signup"
  const UsersPath: string := "/users"
  const ProfilePath: string := "/profile"

  /** The pages a signed-out visitor may see: exact matches only. */
  const PublicPaths: seq<string> := [LoginPath, SignupPath]

  predicate IsPublic(pathname: string)
  {
    pathname in PublicPaths
  }

  /** `pathname.startsWith("/users")`. */
  predicate InUsersSection(pathname: string)
  {
    UsersPath <= pathname
  }

  /** A page whose second character is not 'u' is outside the "/users" prefix. */
  lemma OutsideUsersSection(pathname: string)
    requires |pathname| < 2 || pathname[1] != 'u'
    ensures !InUsersSection(pathname)
  {
    if |UsersPath| <= |pathname| {
      assert pathname[..|UsersPath|][1] != UsersPath[1];
    }
  }

  /** Where a signed-in user is sent away from a public page. */
  function Home(role: Role): (target: string)
    ensures !IsPublic(target)
  {
    if role == MANAGER then UsersPath else ProfilePath
  }

  /** The redirect the guard issues, if any. */
  function Redirect(user: Option<User>, pathname: string): (target: Option<string>)
    ensures target.Some? ==> target.value != pathname
    ensures target.Some? ==> target.value in [LoginPath, UsersPath, ProfilePath]
    ensures target == Some(LoginPath) <==> user.None? && !IsPublic(pathname)
  {
    if user.None? then
      if !IsPublic(pathname) then Some(LoginPath) else None
    else if IsPublic(pathname) then
      Some(Home(user.value.role))
    else if user.value.role == USER && InUsersSection(pathname) then
      assert pathname != ProfilePath by { OutsideUsersSection(ProfilePath); }
      Some(ProfilePath)
    else
      None
  }

  /** Signed out, every page but the two public ones is sent to the login page. */
  lemma SignedOutOffPublicGoesToLogin(pathname: string)
    requires !IsPublic(pathname)
    ensures Redirect(None, pathname) == Some(LoginPath)
  {
  }

  /** The public test is exact: a trailing slash makes a page non-public. */
  lemma TrailingSlashIsNotPublic()
    ensures !IsPublic("/login/") && Redirect(None, "/login/") == Some(LoginPath)
  {
  }

  /** Signed out, the login and signup pages are left alone. */
  lemma SignedOutOnPublicStays(pathname: string)
    requires IsPublic(pathname)
    ensures Redirect(None, pathname) == None
  {
  }

  /** Signed in, a public page sends a MANAGER to "/users" and a USER to "/profile". */
  lemma SignedInLeavesPublic(u: User, pathname: string)
    requires IsPublic(pathname)
    ensures u.role == MANAGER ==> Redirect(Some(u), pathname) == Some(UsersPath)
    ensures u.role == USER ==> Redirect(Some(u), pathname) == Some(ProfilePath)
  {
  }

  /** A USER anywhere in the "/users" prefix is sent to the profile page. */
  lemma UserKeptOutOfUsersSection(u: User, pathname: string)
    requires u.role == USER && InUsersSection(pathname)
    ensures Redirect(Some(u), pathname) == Some(ProfilePath)
  {
    if IsPublic(pathname) {
      PublicPagesOutsideUsersSection(pathname);
    }
  }

  /** The prefix test also catches pages that merely begin with "/users". */
  lemma UsersPrefixExamples(u: User)
    requires u.role == USER
    ensures Redirect(Some(u), "/users") == Some(ProfilePath)
    ensures Redirect(Some(u), "/users/42") == Some(ProfilePath)
    ensures Redirect(Some(u), "/users/create") == Some(ProfilePath)
    ensures Redirect(Some(u), "/usersX") == Some(ProfilePath)
  {
    UserKeptOutOfUsersSection(u, "/users");
    UserKeptOutOfUsersSection(u, "/users/42");
    UserKeptOutOfUsersSection(u, "/users/create");
    UserKeptOutOfUsersSection(u, "/usersX");
  }

  /** A MANAGER on a non-public page is never redirected. */
  lemma ManagerUnrestricted(u: User, pathname: string)
    requires u.role == MANAGER && !IsPublic(pathname)
    ensures Redirect(Some(u), pathname) == None
  {
  }

  /** A USER on a non-public page outside the "/users" prefix is not redirected. */
  lemma UserOutsideUsersSectionStays(u: User, pathname: string)
    requires u.role == USER && !IsPublic(pathname) && !InUsersSection(pathname)
    ensures Redirect(Some(u), pathname) == None
  {
  }

  /**
   * The rules are tried in the written order, and the rule for public pages
   * never has to give way to the "/users" rule: no public page is in that
   * section.
   */
  lemma PublicPagesOutsideUsersSection(pathname: string)
    requires IsPublic(pathname)
    ensures !InUsersSection(pathname)
  {
    OutsideUsersSection(pathname);
  }

  /**
   * Every redirect target is a fixpoint: evaluated again with the same user
   * at the target, the guard issues no further redirect.
   */
  lemma RedirectTargetIsFixpoint(user: Option<User>, pathname: string)
    requires Redirect(user, pathname).Some?
    ensures Redirect(user, Redirect(user, pathname).value) == None
  {
    var target := Redirect(user, pathname).value;
    if user.Some? {
      OutsideUsersSection(ProfilePath);
    }
  }

  /**
   * After a successful sign-in the login page pushes
   * `user.role === "MANAGER" ? "/users" : "/profile"`.
   */
  function LoginDestination(u: User): string
  {
    if RoleName(u.role) == "MANAGER" then UsersPath else ProfilePath
  }

  /** The login page sends a user where the guard would send them from a public page. */
  lemma LoginDestinationAgreesWithGuard(u: User, pathname: string)
    requires IsPublic(pathname)
    ensures Redirect(Some(u), pathname) == Some(LoginDestination(u))
    ensures Redirect(Some(u), LoginDestination(u)) == None
  {
    RedirectTargetIsFixpoint(Some(u), pathname);
  }
}
