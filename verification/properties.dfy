/** Properties that relate several operations of the metadata service: what a
    read returns after a write, idempotence, revocation of roles, and the size
    of the listings. */
module Properties {
  import opened Wrappers
  import opened Metadata
  import opened Queries
  import opened Updates

  // ---------------------------------------------------------------------------
  // Reading back what was written

  /** After userUpsert, usersByEmail returns the upserted user with exactly its
      listed projects (none for an absent list). */
  lemma UserUpsertThenUsersByEmail(s: Settings, u: UserDetails)
    ensures UsersByEmail(AfterUserUpsert(s, u), u.email) == Success(u.(projects := Some(ProjectsOf(u))))
  {
    var r := AfterUserUpsert(s, u);
    assert PermissionsForEmail(r, u.email) == ProjectsOf(u);
  }

  /** After projectsUpsert, projectsByName returns the project with exactly its
      listed users (none for an absent list). */
  lemma ProjectsUpsertThenProjectsByName(s: Settings, d: ProjectDetails)
    ensures ProjectsByName(AfterProjectsUpsert(s, d), d.name) == Success(ProjectDetails(d.name, Some(UsersOf(d))))
  {
    var r := AfterProjectsUpsert(s, d);
    assert UsersOfProject(r, d.name) == UsersOf(d);
  }

  /** After profileUpsert, profileByName returns the stored configuration with
      the status the profile service reports for it. */
  lemma ProfileUpsertThenProfileByName(s: Settings, config: ProfileConfig, statusOf: ProfileConfig -> ProfileStatus)
    ensures ProfileByName(AfterProfileUpsert(s, config), config.name, statusOf)
            == Success(config.(status := Some(statusOf(config.(status := None)))))
  {
  }

  /** A user's projects and a project's users are two views of the same
      permissions: they agree with each other. */
  lemma ViewsAgree(s: Settings, email: string, projectName: string)
    requires email in s.users && projectName in s.projects
    ensures projectName in UsersByEmail(s, email).value.projects.value
            <==> email in ProjectsByName(s, projectName).value.users.value
  {
  }

  // ---------------------------------------------------------------------------
  // Deleting revokes

  /** After userDelete of a known user, the user is unknown and no role is
      derived for it from the stored permissions or admin flag. */
  lemma UserDeleteRevokesRoles(s: Settings, email: string, claims: map<string, seq<string>>)
    requires email in s.users
    ensures UsersByEmail(AfterUserDelete(s, email).value, email) == Failure(UnknownUser(email))
    ensures AuthoritiesForEmail(AfterUserDelete(s, email).value, email, claims, false) == {}
  {
  }

  /** After projectsDelete, the project is unknown and nobody holds a
      permission on it. */
  lemma ProjectsDeleteRevokesProject(s: Settings, projectName: string, email: string)
    ensures ProjectsByName(AfterProjectsDelete(s, projectName), projectName) == Failure(UnknownProject(projectName))
    ensures projectName !in PermissionsForEmail(AfterProjectsDelete(s, projectName), email)
  {
  }

  /** permissionsDelete(email, project) leaves the user with no project and the
      project with no user, whatever other permissions they held. */
  lemma PermissionsDeleteRevokesUserAndProject(s: Settings, email: string, project: string)
    ensures PermissionsForEmail(AfterPermissionsDelete(s, email, project), email) == {}
    ensures UsersOfProject(AfterPermissionsDelete(s, email, project), project) == {}
  {
  }

  // ---------------------------------------------------------------------------
  // Granting

  /** After permissionsAdd(email, project), both views show the permission and
      the researcher role on the project is derived for the user. */
  lemma PermissionsAddGrants(s: Settings, email: string, project: string,
                             claims: map<string, seq<string>>, oidcPermissionsEnabled: bool)
    ensures project in UsersByEmail(AfterPermissionsAdd(s, email, project), email).value.projects.value
    ensures email in ProjectsByName(AfterPermissionsAdd(s, email, project), project).value.users.value
    ensures ResearcherRole(project) in AuthoritiesForEmail(AfterPermissionsAdd(s, email, project), email, claims, oidcPermissionsEnabled)
  {
  }

  /** permissionsAdd twice gives the state that permissionsAdd once gives. */
  lemma PermissionsAddIdempotent(s: Settings, email: string, project: string)
    ensures AfterPermissionsAdd(AfterPermissionsAdd(s, email, project), email, project)
            == AfterPermissionsAdd(s, email, project)
  {
  }

  /** userUpsert twice with the same record gives the state that userUpsert once gives. */
  lemma UserUpsertIdempotent(s: Settings, u: UserDetails)
    ensures AfterUserUpsert(AfterUserUpsert(s, u), u) == AfterUserUpsert(s, u)
  {
  }

  /** projectsUpsert twice with the same record gives the state that projectsUpsert once gives. */
  lemma ProjectsUpsertIdempotent(s: Settings, d: ProjectDetails)
    ensures AfterProjectsUpsert(AfterProjectsUpsert(s, d), d) == AfterProjectsUpsert(s, d)
  {
  }

  // ---------------------------------------------------------------------------
  // Role derivation

  /** The super-user role is never a researcher role: the latter is longer. */
  lemma SuperUserRoleIsNoResearcherRole(p: string)
    ensures ResearcherRole(p) != SuperUserRole
  {
  }

  /** "ROLE_SU" is derived exactly for users whose admin flag is set, or, with
      roles from the identity provider, when a claimed role upper-cases to "SU". */
  lemma SuperUserRoleIff(s: Settings, email: string, claims: map<string, seq<string>>, oidcPermissionsEnabled: bool)
    ensures SuperUserRole in AuthoritiesForEmail(s, email, claims, oidcPermissionsEnabled)
            <==> || IsSuperUser(s, email)
                 || (oidcPermissionsEnabled && exists role :: role in ClaimedRoles(claims) && Upper(role) == "SU")
  {
    var r := AuthoritiesForEmail(s, email, claims, oidcPermissionsEnabled);
    if SuperUserRole in r && !IsSuperUser(s, email) {
      forall p ensures ResearcherRole(p) != SuperUserRole {
        SuperUserRoleIsNoResearcherRole(p);
      }
      var i :| 0 <= i < |ClaimedRoles(claims)| && SuperUserRole == ClaimRole(ClaimedRoles(claims)[i]);
      var role := ClaimedRoles(claims)[i];
      assert Upper(role) == SuperUserRole[|RolePrefix|..];
    }
    if oidcPermissionsEnabled && exists role :: role in ClaimedRoles(claims) && Upper(role) == "SU" {
      var role :| role in ClaimedRoles(claims) && Upper(role) == "SU";
      var i :| 0 <= i < |ClaimedRoles(claims)| && ClaimedRoles(claims)[i] == role;
      assert ClaimRole(role) == SuperUserRole;
    }
  }

  /** Researcher roles of different projects differ unless the project names
      differ only in letter case. */
  lemma ResearcherRoleInjective(p: string, q: string)
    requires ResearcherRole(p) == ResearcherRole(q)
    ensures Upper(p) == Upper(q)
  {
    var a, b := ResearcherRole(p), ResearcherRole(q);
    assert |Upper(p)| == |Upper(q)|;
    assert Upper(p) == a[|RolePrefix|..|RolePrefix| + |Upper(p)|];
    assert Upper(q) == b[|RolePrefix|..|RolePrefix| + |Upper(q)|];
  }

  /** Without roles from the identity provider, the researcher role of `q` is
      derived exactly when the user holds a permission on a project whose name
      equals `q` up to letter case. */
  lemma ResearcherRoleIff(s: Settings, email: string, claims: map<string, seq<string>>, q: string)
    ensures ResearcherRole(q) in AuthoritiesForEmail(s, email, claims, false)
            <==> exists p :: ProjectPermission(email, p) in s.permissions && Upper(p) == Upper(q)
  {
    var r := AuthoritiesForEmail(s, email, claims, false);
    if ResearcherRole(q) in r {
      SuperUserRoleIsNoResearcherRole(q);
      var p :| ProjectPermission(email, p) in s.permissions && ResearcherRole(q) == ResearcherRole(p);
      ResearcherRoleInjective(p, q);
    }
    if exists p :: ProjectPermission(email, p) in s.permissions && Upper(p) == Upper(q) {
      var p :| ProjectPermission(email, p) in s.permissions && Upper(p) == Upper(q);
      assert ResearcherRole(p) == ResearcherRole(q);
    }
  }

  /** After userUpsert, without roles from the identity provider, the user is a
      super user exactly when the upserted record has its admin flag set. */
  lemma UserUpsertSuperUser(s: Settings, u: UserDetails, claims: map<string, seq<string>>)
    ensures SuperUserRole in AuthoritiesForEmail(AfterUserUpsert(s, u), u.email, claims, false)
            <==> u.admin == Some(true)
  {
    SuperUserRoleIff(AfterUserUpsert(s, u), u.email, claims, false);
  }

  // ---------------------------------------------------------------------------
  // Listings

  /** Distinct stored e-mails give distinct users in the listing. */
  lemma {:induction false} UserViewsSize(s: Settings, emails: set<string>)
    requires Consistent(s) && emails <= s.users.Keys
    ensures |set e | e in emails :: UserView(s, e)| == |emails|
    decreases emails
  {
    if emails != {} {
      var e :| e in emails;
      var rest := emails - {e};
      UserViewsSize(s, rest);
      var views := set x | x in emails :: UserView(s, x);
      var restViews := set x | x in rest :: UserView(s, x);
      assert views == restViews + {UserView(s, e)};
      assert UserView(s, e) !in restViews;
    }
  }

  /** usersList holds one entry per stored user. */
  lemma UsersListSize(s: Settings)
    requires Consistent(s)
    ensures |UsersList(s)| == |s.users|
  {
    UserViewsSize(s, s.users.Keys);
  }

  /** Distinct project names give distinct projects in the listing. */
  lemma {:induction false} ProjectViewsSize(s: Settings, names: set<string>)
    ensures |set p | p in names :: ProjectView(s, p)| == |names|
    decreases names
  {
    if names != {} {
      var p :| p in names;
      var rest := names - {p};
      ProjectViewsSize(s, rest);
      var views := set x | x in names :: ProjectView(s, x);
      var restViews := set x | x in rest :: ProjectView(s, x);
      assert views == restViews + {ProjectView(s, p)};
      assert ProjectView(s, p) !in restViews;
    }
  }

  /** projectsList holds one entry per stored project. */
  lemma ProjectsListSize(s: Settings)
    ensures |ProjectsList(s)| == |s.projects|
  {
    ProjectViewsSize(s, s.projects.Keys);
  }
}
