/** The top-level session of `App.tsx`: six fields updated by the login, logout and
    quit handlers and by the callbacks handed to the role selector, the login form and
    the job-role selector; the screen shown and the page behind each route follow from
    those fields. */
module Session {
  import opened Options
  import opened Types

  /** The four things `App` can render. */
  datatype Screen = RoleSelection | LoginScreen | JobRoleSelection | Workspace

  /** Roles that must pick a job role after authenticating. */
  predicate NeedsJobRole(role: Role) {
    role == ZoneDeSante || role == AireDeSante
  }

  /** The screen chosen by the chain of early returns in `App`. */
  function ScreenFor(role: Option<Role>, authenticated: bool, jobRole: Option<JobRole>): (s: Screen)
    ensures s == RoleSelection <==> role.None?
    ensures s == LoginScreen <==> role.Some? && !authenticated
    ensures s == JobRoleSelection <==> role.Some? && authenticated && NeedsJobRole(role.value) && jobRole.None?
    ensures s == Workspace <==> role.Some? && authenticated && (!NeedsJobRole(role.value) || jobRole.Some?)
  {
    if role.None? then RoleSelection
    else if !authenticated then LoginScreen
    else if NeedsJobRole(role.value) && jobRole.None? then JobRoleSelection
    else Workspace
  }

  /** With no role selected, the role selector is shown whatever the other fields hold. */
  lemma NoRoleShowsRoleSelector(authenticated: bool, jobRole: Option<JobRole>)
    ensures ScreenFor(None, authenticated, jobRole) == RoleSelection
  {
  }

  /** The pages mounted under the workspace layout. */
  datatype Page =
    | CommunityPortal(userId: string)
    | Dashboard(role: Role, jobRole: Option<JobRole>)
    | PatientList
    | PartogramView
    | ChatBot
    | ReferralSystem
    | VaccinationCalendar(userId: string)
    | Statistics

  function KnownPaths(): seq<string> {
    ["/", "/cpn", "/partogram", "/afyabot", "/referrals", "/vaccination", "/stats"]
  }

  /** The path rendered for a requested path: itself when a route declares it, and "/"
      otherwise (the catch-all `<Navigate to="/" replace />`). */
  function RouteTarget(path: string): (target: string)
    ensures target in KnownPaths()
    ensures path in KnownPaths() ==> target == path
    ensures path !in KnownPaths() ==> target == "/"
  {
    if path in KnownPaths() then path else "/"
  }

  /** Redirecting is idempotent: a redirected path is served as it is. */
  lemma RouteTargetIdempotent(path: string)
    ensures RouteTarget(RouteTarget(path)) == RouteTarget(path)
  {
  }

  /** The page the router mounts for `path`, given the session fields it reads. */
  function PageFor(role: Role, jobRole: Option<JobRole>, authId: string, path: string): (p: Page)
    ensures RouteTarget(path) == "/" ==>
      p == (if role == Communaute then CommunityPortal(authId) else Dashboard(role, jobRole))
    ensures path == "/cpn" ==> p == PatientList
    ensures path == "/vaccination" ==> p == VaccinationCalendar(authId)
    ensures path == "/partogram" ==> p == PartogramView
    ensures path == "/afyabot" ==> p == ChatBot
    ensures path == "/referrals" ==> p == ReferralSystem
    ensures path == "/stats" ==> p == Statistics
  {
    match RouteTarget(path)
    case "/cpn" => PatientList
    case "/partogram" => PartogramView
    case "/afyabot" => ChatBot
    case "/referrals" => ReferralSystem
    case "/vaccination" => VaccinationCalendar(authId)
    case "/stats" => Statistics
    case _ => if role == Communaute then CommunityPortal(authId) else Dashboard(role, jobRole)
  }

  /** Any path no route declares shows what "/" shows. */
  lemma UnknownPathServesHome(role: Role, jobRole: Option<JobRole>, authId: string, path: string)
    requires path !in KnownPaths()
    ensures PageFor(role, jobRole, authId, path) == PageFor(role, jobRole, authId, "/")
  {
  }

  /** Distinct declared paths mount distinct pages. */
  lemma KnownPathsMountDistinctPages(role: Role, jobRole: Option<JobRole>, authId: string, a: string, b: string)
    requires a in KnownPaths() && b in KnownPaths() && a != b
    ensures PageFor(role, jobRole, authId, a) != PageFor(role, jobRole, authId, b)
  {
  }

  class App {
    var selectedRole: Option<Role>
    var selectedProvince: Option<Province>
    var selectedStructure: Option<HealthStructure>
    var isAuthenticated: bool
    var jobRole: Option<JobRole>
    var authId: string

    /** The six `useState` initial values. */
    predicate IsInitial()
      reads this
    {
      && selectedRole.None? && selectedProvince.None? && selectedStructure.None?
      && !isAuthenticated && jobRole.None? && authId == ""
    }

    function CurrentScreen(): Screen
      reads this
    {
      ScreenFor(selectedRole, isAuthenticated, jobRole)
    }

    constructor ()
      ensures IsInitial()
      ensures CurrentScreen() == RoleSelection
    {
      selectedRole, selectedProvince, selectedStructure := None, None, None;
      isAuthenticated, jobRole, authId := false, None, "";
    }

    /** The role selector's `onSelect(role, province, structure)`. */
    method SelectRole(role: Role, province: Option<Province>, structure: Option<HealthStructure>)
      modifies this
      ensures selectedRole == Some(role) && selectedProvince == province && selectedStructure == structure
      ensures isAuthenticated == old(isAuthenticated) && jobRole == old(jobRole) && authId == old(authId)
      ensures !old(isAuthenticated) ==> CurrentScreen() == LoginScreen
    {
      selectedRole := Some(role);
      selectedProvince := province;
      selectedStructure := structure;
    }

    /** The login form's `onLogin(id)`. */
    method LogIn(id: string)
      modifies this
      ensures isAuthenticated && authId == id
      ensures selectedRole == old(selectedRole) && selectedProvince == old(selectedProvince)
      ensures selectedStructure == old(selectedStructure) && jobRole == old(jobRole)
      ensures selectedRole.Some? ==> CurrentScreen() != LoginScreen && CurrentScreen() != RoleSelection
    {
      isAuthenticated := true;
      authId := id;
    }

    /** The login form's `onBack`: forget the role, province and structure. */
    method LoginBack()
      modifies this
      ensures selectedRole.None? && selectedProvince.None? && selectedStructure.None?
      ensures isAuthenticated == old(isAuthenticated) && jobRole == old(jobRole) && authId == old(authId)
      ensures CurrentScreen() == RoleSelection
    {
      selectedRole := None;
      selectedProvince := None;
      selectedStructure := None;
    }

    /** The job-role selector's `onSelect` (`setJobRole`). */
    method ChooseJobRole(j: JobRole)
      modifies this
      ensures jobRole == Some(j)
      ensures selectedRole == old(selectedRole) && selectedProvince == old(selectedProvince)
      ensures selectedStructure == old(selectedStructure)
      ensures isAuthenticated == old(isAuthenticated) && authId == old(authId)
      ensures old(CurrentScreen()) == JobRoleSelection ==> CurrentScreen() == Workspace
    {
      jobRole := Some(j);
    }

    /** `handleLogout`: end the authentication but keep the role, province and
        structure, so the login screen comes next. */
    method Logout()
      modifies this
      ensures !isAuthenticated && jobRole.None? && authId == ""
      ensures selectedRole == old(selectedRole) && selectedProvince == old(selectedProvince)
      ensures selectedStructure == old(selectedStructure)
      ensures selectedRole.Some? ==> CurrentScreen() == LoginScreen
    {
      isAuthenticated := false;
      jobRole := None;
      authId := "";
    }

    /** `handleQuit`: back to the initial state, so the role selector comes next. */
    method Quit()
      modifies this
      ensures IsInitial()
      ensures CurrentScreen() == RoleSelection
    {
      isAuthenticated := false;
      selectedRole := None;
      selectedProvince := None;
      selectedStructure := None;
      jobRole := None;
      authId := "";
    }
  }
}
