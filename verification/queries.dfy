/** The read operations of the metadata service: each is a function of the
    current metadata, and none changes it. */
module Queries {
  import opened Wrappers
  import opened Metadata

  /** The projects on which `email` holds a permission. */
  function PermissionsForEmail(s: Settings, email: string): (r: set<string>)
    ensures forall p :: p in r <==> ProjectPermission(email, p) in s.permissions
  {
    set pp | pp in s.permissions && pp.email == email :: pp.project
  }

  /** The e-mails that hold a permission on `projectName`. */
  function UsersOfProject(s: Settings, projectName: string): (r: set<string>)
    ensures forall e :: e in r <==> ProjectPermission(e, projectName) in s.permissions
  {
    set pp | pp in s.permissions && pp.project == projectName :: pp.email
  }

  /** A stored user as it is handed out: its projects filled in from the permissions. */
  function UserView(s: Settings, email: string): UserDetails
    requires email in s.users
  {
    s.users[email].(projects := Some(PermissionsForEmail(s, email)))
  }

  /** A stored project as it is handed out: its users filled in from the permissions. */
  function ProjectView(s: Settings, projectName: string): ProjectDetails
  {
    ProjectDetails(projectName, Some(UsersOfProject(s, projectName)))
  }

  /** Looks a user up by e-mail; an unknown e-mail raises `UnknownUser`. */
  function UsersByEmail(s: Settings, email: string): (r: Result<UserDetails, MetadataError>)
    ensures r.Failure? <==> email !in s.users
    ensures r.Failure? ==> r.error == UnknownUser(email)
    ensures r.Success? ==> r.value.(projects := None) == s.users[email].(projects := None)
    ensures r.Success? ==> r.value.projects.Some?
    ensures r.Success? ==> forall p :: p in r.value.projects.value <==> ProjectPermission(email, p) in s.permissions
    ensures r.Success? && Consistent(s) ==> r.value.email == email
  {
    if email !in s.users then Failure(UnknownUser(email)) else Success(UserView(s, email))
  }

  /** All users, each as `UsersByEmail` hands it out. The Java service returns them as a
      list in the iteration order of the user map; here they form a set. */
  function UsersList(s: Settings): (r: set<UserDetails>)
    ensures forall e :: e in s.users ==> UsersByEmail(s, e).Success? && UsersByEmail(s, e).value in r
    ensures forall u :: u in r ==> exists e :: e in s.users && UsersByEmail(s, e) == Success(u)
  {
    set e | e in s.users :: UserView(s, e)
  }

  /** Looks a project up by name; an unknown name raises `UnknownProject`. */
  function ProjectsByName(s: Settings, projectName: string): (r: Result<ProjectDetails, MetadataError>)
    ensures r.Failure? <==> projectName !in s.projects
    ensures r.Failure? ==> r.error == UnknownProject(projectName)
    ensures r.Success? ==> r.value.name == projectName && r.value.users.Some?
    ensures r.Success? ==> forall e :: e in r.value.users.value <==> ProjectPermission(e, projectName) in s.permissions
  {
    if projectName !in s.projects then Failure(UnknownProject(projectName))
    else Success(ProjectView(s, projectName))
  }

  /** All projects, each as `ProjectsByName` hands it out (a set, as for `UsersList`). */
  function ProjectsList(s: Settings): (r: set<ProjectDetails>)
    ensures forall p :: p in s.projects ==> ProjectsByName(s, p).Success? && ProjectsByName(s, p).value in r
    ensures forall d :: d in r ==> d.name in s.projects && ProjectsByName(s, d.name) == Success(d)
  {
    set p | p in s.projects :: ProjectView(s, p)
  }

  /** Looks a profile up by name; an unknown name raises `UnknownProfile`. The
      status is asked of the profile service, which is the parameter `statusOf`. */
  function ProfileByName(s: Settings, profileName: string, statusOf: ProfileConfig -> ProfileStatus)
    : (r: Result<ProfileConfig, MetadataError>)
    ensures r.Failure? <==> profileName !in s.profiles
    ensures r.Failure? ==> r.error == UnknownProfile(profileName)
    ensures r.Success? ==> r.value.(status := None) == s.profiles[profileName].(status := None)
    ensures r.Success? ==> r.value.status == Some(statusOf(s.profiles[profileName]))
  {
    if profileName !in s.profiles then Failure(UnknownProfile(profileName))
    else
      var config := s.profiles[profileName];
      Success(config.(status := Some(statusOf(config))))
  }

  /** All stored profiles, as stored (without a status). */
  function ProfileList(s: Settings): (r: set<ProfileConfig>)
    ensures forall n :: n in s.profiles ==> s.profiles[n] in r
    ensures forall c :: c in r ==> exists n :: n in s.profiles && s.profiles[n] == c
  {
    s.profiles.Values
  }

  /** All permissions, as stored; under the invariant each names a known user
      and a known project. */
  function PermissionsList(s: Settings): (r: set<ProjectPermission>)
    ensures forall pp :: pp in r <==> pp in s.permissions
    ensures Consistent(s) ==> forall pp :: pp in r ==> UsersByEmail(s, pp.email).Success? && ProjectsByName(s, pp.project).Success?
  {
    s.permissions
  }

  /** True iff `email` is a user whose admin flag is set (an absent flag is not set). */
  predicate IsSuperUser(s: Settings, email: string)
    ensures IsSuperUser(s, email) <==> UsersByEmail(s, email).Success? && UsersByEmail(s, email).value.admin == Some(true)
  {
    email in s.users && s.users[email].admin == Some(true)
  }

  // ---------------------------------------------------------------------------
  // Role derivation for the security layer

  /** ASCII upper case of one character; other characters are unchanged. */
  function UpperChar(c: char): char
  {
    if 'a' <= c <= 'z' then (c as int - 32) as char else c
  }

  /** ASCII upper case of a string. */
  function Upper(s: string): (r: string)
    ensures |r| == |s|
    ensures forall i :: 0 <= i < |s| ==> r[i] == UpperChar(s[i])
    ensures forall i :: 0 <= i < |s| ==> !('a' <= r[i] <= 'z')
  {
    if s == [] then [] else [UpperChar(s[0])] + Upper(s[1..])
  }

  const RolePrefix := "ROLE_"
  const ResearcherSuffix := "_RESEARCHER"
  const SuperUserRole := "ROLE_SU"

  /** The role that grants access to one project. */
  function ResearcherRole(projectName: string): string
  {
    RolePrefix + Upper(projectName) + ResearcherSuffix
  }

  /** The role named by an identity-provider claim. */
  function ClaimRole(role: string): string
  {
    RolePrefix + Upper(role)
  }

  /** The roles listed under the "roles" claim; none when the claim is missing. */
  function ClaimedRoles(claims: map<string, seq<string>>): seq<string>
  {
    if "roles" in claims then claims["roles"] else []
  }

  /** The authorities handed to the security layer for `email`: the claimed roles
      when permissions from the identity provider are enabled, one researcher role
      per permitted project, and the super-user role for an admin. The Java
      service returns a list; here it is a set. */
  function AuthoritiesForEmail(s: Settings, email: string, claims: map<string, seq<string>>,
                               oidcPermissionsEnabled: bool): (r: set<string>)
    ensures forall p :: ProjectPermission(email, p) in s.permissions ==> ResearcherRole(p) in r
    ensures IsSuperUser(s, email) ==> SuperUserRole in r
    ensures oidcPermissionsEnabled ==> forall i :: 0 <= i < |ClaimedRoles(claims)| ==> ClaimRole(ClaimedRoles(claims)[i]) in r
    ensures forall a :: a in r ==>
      || (a == SuperUserRole && IsSuperUser(s, email))
      || (exists p :: ProjectPermission(email, p) in s.permissions && a == ResearcherRole(p))
      || (oidcPermissionsEnabled && exists i :: 0 <= i < |ClaimedRoles(claims)| && a == ClaimRole(ClaimedRoles(claims)[i]))
  {
    (if oidcPermissionsEnabled then set role | role in ClaimedRoles(claims) :: ClaimRole(role) else {})
    + (set p | p in PermissionsForEmail(s, email) :: ResearcherRole(p))
    + (if IsSuperUser(s, email) then {SuperUserRole} else {})
  }
}
