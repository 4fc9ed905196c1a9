/** What each changing operation of the metadata service does to the metadata,
    as a function from the metadata before to the metadata after. The class
    `Service.MetadataService` performs these changes in place. */
module Updates {
  import opened Wrappers
  import opened Metadata

  /** The projects a user record lists; none when the list is absent. */
  function ProjectsOf(u: UserDetails): set<string>
  {
    if u.projects.Some? then u.projects.value else {}
  }

  /** The users a project record lists; none when the list is absent. */
  function UsersOf(d: ProjectDetails): set<string>
  {
    if d.users.Some? then d.users.value else {}
  }

  /** `projects` with an empty project added for each name in `names` that has
      none (a `putIfAbsent` per name). */
  function AddMissingProjects(projects: map<string, ProjectDetails>, names: set<string>)
    : (r: map<string, ProjectDetails>)
    ensures r.Keys == projects.Keys + names
    ensures forall p :: p in projects ==> r[p] == projects[p]
    ensures forall p :: p in names && p !in projects ==> r[p] == ProjectDetails(p, Some({}))
  {
    map p | p in projects.Keys + names :: if p in projects then projects[p] else ProjectDetails(p, Some({}))
  }

  /** `users` with a bare user added for each e-mail in `emails` that has none
      (a `putIfAbsent` per e-mail). */
  function AddMissingUsers(users: map<string, UserDetails>, emails: set<string>)
    : (r: map<string, UserDetails>)
    ensures r.Keys == users.Keys + emails
    ensures forall e :: e in users ==> r[e] == users[e]
    ensures forall e :: e in emails && e !in users ==> r[e] == NewUser(e)
  {
    map e | e in users.Keys + emails :: if e in users then users[e] else NewUser(e)
  }

  /** One more `putIfAbsent` of an empty project. */
  lemma AddMissingProjectsStep(projects: map<string, ProjectDetails>, names: set<string>, p: string)
    ensures AddMissingProjects(projects, names + {p})
            == (var m := AddMissingProjects(projects, names);
                if p in m then m else m[p := ProjectDetails(p, Some({}))])
  {
  }

  /** One more `putIfAbsent` of a bare user. */
  lemma AddMissingUsersStep(users: map<string, UserDetails>, emails: set<string>, e: string)
    ensures AddMissingUsers(users, emails + {e})
            == (var m := AddMissingUsers(users, emails);
                if e in m then m else m[e := NewUser(e)])
  {
  }

  /** userUpsert: stores `u` without its projects, replaces the permissions of
      `u.email` by one per listed project, and creates missing projects. */
  function AfterUserUpsert(s: Settings, u: UserDetails): (r: Settings)
    ensures forall p :: ProjectPermission(u.email, p) in r.permissions <==> p in ProjectsOf(u)
    ensures forall pp: ProjectPermission :: pp.email != u.email ==> (pp in r.permissions <==> pp in s.permissions)
    ensures forall p :: p in ProjectsOf(u) ==> p in r.projects
    ensures forall p :: p in s.projects ==> p in r.projects && r.projects[p] == s.projects[p]
    ensures r.projects.Keys == s.projects.Keys + ProjectsOf(u)
    ensures forall p :: p in ProjectsOf(u) && p !in s.projects ==> r.projects[p] == ProjectDetails(p, Some({}))
    ensures r.users.Keys == s.users.Keys + {u.email}
    ensures r.users[u.email] == u.(projects := None)
    ensures forall e :: e in s.users && e != u.email ==> r.users[e] == s.users[e]
    ensures r.profiles == s.profiles
    ensures Consistent(s) ==> Consistent(r)
  {
    Settings(
      s.users[u.email := u.(projects := None)],
      AddMissingProjects(s.projects, ProjectsOf(u)),
      s.profiles,
      (set pp | pp in s.permissions && pp.email != u.email)
      + (set p | p in ProjectsOf(u) :: ProjectPermission(u.email, p)))
  }

  /** userDelete: an unknown e-mail raises `UnknownUser` and changes nothing;
      otherwise the user and every permission of that user go. */
  function AfterUserDelete(s: Settings, email: string): (r: Result<Settings, MetadataError>)
    ensures r.Failure? <==> email !in s.users
    ensures r.Failure? ==> r.error == UnknownUser(email)
    ensures r.Success? ==> r.value.users.Keys == s.users.Keys - {email}
    ensures r.Success? ==> forall e :: e in r.value.users ==> r.value.users[e] == s.users[e]
    ensures r.Success? ==> forall pp :: pp in r.value.permissions <==> pp in s.permissions && pp.email != email
    ensures r.Success? ==> r.value.projects == s.projects && r.value.profiles == s.profiles
    ensures r.Success? && Consistent(s) ==> Consistent(r.value)
  {
    if email !in s.users then Failure(UnknownUser(email))
    else
      Success(Settings(
        s.users - {email},
        s.projects,
        s.profiles,
        set pp | pp in s.permissions && pp.email != email))
  }

  /** projectsUpsert: stores the project without its users, replaces the
      permissions on the project by one per listed user, and creates missing users. */
  function AfterProjectsUpsert(s: Settings, d: ProjectDetails): (r: Settings)
    ensures forall e :: ProjectPermission(e, d.name) in r.permissions <==> e in UsersOf(d)
    ensures forall pp: ProjectPermission :: pp.project != d.name ==> (pp in r.permissions <==> pp in s.permissions)
    ensures r.users.Keys == s.users.Keys + UsersOf(d)
    ensures forall e :: e in UsersOf(d) && e !in s.users ==> r.users[e] == NewUser(e)
    ensures forall e :: e in s.users ==> r.users[e] == s.users[e]
    ensures r.projects.Keys == s.projects.Keys + {d.name}
    ensures r.projects[d.name] == ProjectDetails(d.name, Some({}))
    ensures forall p :: p in s.projects && p != d.name ==> r.projects[p] == s.projects[p]
    ensures r.profiles == s.profiles
    ensures Consistent(s) ==> Consistent(r)
  {
    Settings(
      AddMissingUsers(s.users, UsersOf(d)),
      s.projects[d.name := ProjectDetails(d.name, Some({}))],
      s.profiles,
      (set pp | pp in s.permissions && pp.project != d.name)
      + (set e | e in UsersOf(d) :: ProjectPermission(e, d.name)))
  }

  /** projectsDelete: the project and every permission on it go; an unknown
      name is no error. */
  function AfterProjectsDelete(s: Settings, projectName: string): (r: Settings)
    ensures r.projects.Keys == s.projects.Keys - {projectName}
    ensures forall p :: p in r.projects ==> r.projects[p] == s.projects[p]
    ensures forall pp :: pp in r.permissions <==> pp in s.permissions && pp.project != projectName
    ensures r.users == s.users && r.profiles == s.profiles
    ensures Consistent(s) ==> Consistent(r)
  {
    Settings(
      s.users,
      s.projects - {projectName},
      s.profiles,
      set pp | pp in s.permissions && pp.project != projectName)
  }

  /** permissionsAdd: grants `project` to `email`, creating a bare user and a
      project without users where they are missing. */
  function AfterPermissionsAdd(s: Settings, email: string, project: string): (r: Settings)
    ensures r.permissions == s.permissions + {ProjectPermission(email, project)}
    ensures r.users.Keys == s.users.Keys + {email}
    ensures forall e :: e in s.users ==> r.users[e] == s.users[e]
    ensures email !in s.users ==> r.users[email] == NewUser(email)
    ensures r.projects.Keys == s.projects.Keys + {project}
    ensures forall p :: p in s.projects ==> r.projects[p] == s.projects[p]
    ensures project !in s.projects ==> r.projects[project] == ProjectDetails(project, None)
    ensures r.profiles == s.profiles
    ensures Consistent(s) ==> Consistent(r)
  {
    Settings(
      if email in s.users then s.users else s.users[email := NewUser(email)],
      if project in s.projects then s.projects else s.projects[project := ProjectDetails(project, None)],
      s.profiles,
      s.permissions + {ProjectPermission(email, project)})
  }

  /** permissionsDelete: keeps only the permissions that are neither of `email`
      nor on `project`, so it revokes every permission of the user and every
      permission on the project, not just the one pair. */
  function AfterPermissionsDelete(s: Settings, email: string, project: string): (r: Settings)
    ensures forall pp :: pp in r.permissions <==> pp in s.permissions && pp.email != email && pp.project != project
    ensures r.users == s.users && r.projects == s.projects && r.profiles == s.profiles
    ensures Consistent(s) ==> Consistent(r)
  {
    Settings(
      s.users,
      s.projects,
      s.profiles,
      set pp | pp in s.permissions && pp.project != project && pp.email != email)
  }

  /** profileUpsert: stores the profile under its name, without a status. */
  function AfterProfileUpsert(s: Settings, config: ProfileConfig): (r: Settings)
    ensures r.profiles.Keys == s.profiles.Keys + {config.name}
    ensures r.profiles[config.name] == config.(status := None)
    ensures forall n :: n in s.profiles && n != config.name ==> r.profiles[n] == s.profiles[n]
    ensures r.users == s.users && r.projects == s.projects && r.permissions == s.permissions
    ensures Consistent(s) ==> Consistent(r)
  {
    s.(profiles := s.profiles[config.name := config.(status := None)])
  }

  /** profileDelete: the profile goes; an unknown name is no error. */
  function AfterProfileDelete(s: Settings, profileName: string): (r: Settings)
    ensures r.profiles.Keys == s.profiles.Keys - {profileName}
    ensures forall n :: n in r.profiles ==> r.profiles[n] == s.profiles[n]
    ensures r.users == s.users && r.projects == s.projects && r.permissions == s.permissions
    ensures Consistent(s) ==> Consistent(r)
  {
    s.(profiles := s.profiles - {profileName})
  }
}
