/** The metadata service as an object: four collections that its operations
    update in place. Each changing operation is proved to leave exactly the
    metadata that the matching function of `Updates` describes. */
module Service {
  import opened Wrappers
  import opened Metadata
  import opened Updates

  class MetadataService {
    var users: map<string, UserDetails>
    var projects: map<string, ProjectDetails>
    var profiles: map<string, ProfileConfig>
    var permissions: set<ProjectPermission>

    /** The metadata held by the service: its four collections as one value. */
    function State(): (s: Settings)
      reads this
      ensures s.users == users && s.projects == projects && s.profiles == profiles && s.permissions == permissions
    {
      Settings(users, projects, profiles, permissions)
    }

    ghost predicate Valid()
      reads this
    {
      Consistent(State())
    }

    /** Starts from the metadata of a first start (no metadata file yet). */
    constructor ()
      ensures State() == Empty() && Valid()
    {
      users, projects, profiles, permissions := map[], map[], map[], {};
    }

    method UserUpsert(u: UserDetails)
      modifies this
      ensures State() == AfterUserUpsert(old(State()), u)
      ensures old(Valid()) ==> Valid()
    {
      var email := u.email;
      // strip the previous permissions of this user
      var granted := set pp | pp in permissions && pp.email != email;
      ghost var kept := granted;
      if u.projects.Some? {
        var todo := u.projects.value;
        ghost var done: set<string> := {};
        while todo != {}
          invariant done + todo == u.projects.value && done !! todo
          invariant projects == AddMissingProjects(old(projects), done)
          invariant granted == kept + (set p | p in done :: ProjectPermission(email, p))
          invariant users == old(users) && profiles == old(profiles) && permissions == old(permissions)
          decreases todo
        {
          var p :| p in todo;
          AddMissingProjectsStep(old(projects), done, p);
          if p !in projects {
            // add the missing project
            projects := projects[p := ProjectDetails(p, Some({}))];
          }
          granted := granted + {ProjectPermission(email, p)};
          todo, done := todo - {p}, done + {p};
        }
      }
      assert projects == AddMissingProjects(old(projects), ProjectsOf(u));
      assert granted == kept + (set p | p in ProjectsOf(u) :: ProjectPermission(email, p));
      users := users[email := u.(projects := None)];
      permissions := granted;
    }

    method UserDelete(email: string) returns (outcome: Outcome<MetadataError>)
      modifies this
      ensures outcome.Fail? ==> State() == old(State())
      ensures AfterUserDelete(old(State()), email)
              == if outcome.Pass? then Success(State()) else Failure(outcome.error)
      ensures old(Valid()) ==> Valid()
    {
      if email !in users {
        return Fail(UnknownUser(email));
      }
      users := users - {email};
      permissions := set pp | pp in permissions && pp.email != email;
      outcome := Pass;
    }

    method ProjectsUpsert(d: ProjectDetails)
      modifies this
      ensures State() == AfterProjectsUpsert(old(State()), d)
      ensures old(Valid()) ==> Valid()
    {
      var name := d.name;
      // strip the previous permissions on this project
      var granted := set pp | pp in permissions && pp.project != name;
      ghost var kept := granted;
      if d.users.Some? {
        var todo := d.users.value;
        ghost var done: set<string> := {};
        while todo != {}
          invariant done + todo == d.users.value && done !! todo
          invariant users == AddMissingUsers(old(users), done)
          invariant granted == kept + (set e | e in done :: ProjectPermission(e, name))
          invariant projects == old(projects) && profiles == old(profiles) && permissions == old(permissions)
          decreases todo
        {
          var e :| e in todo;
          AddMissingUsersStep(old(users), done, e);
          if e !in users {
            // add the missing user
            users := users[e := NewUser(e)];
          }
          granted := granted + {ProjectPermission(e, name)};
          todo, done := todo - {e}, done + {e};
        }
      }
      assert users == AddMissingUsers(old(users), UsersOf(d));
      assert granted == kept + (set e | e in UsersOf(d) :: ProjectPermission(e, name));
      projects := projects[name := ProjectDetails(name, Some({}))];
      permissions := granted;
    }

    method ProjectsDelete(projectName: string)
      modifies this
      ensures State() == AfterProjectsDelete(old(State()), projectName)
      ensures old(Valid()) ==> Valid()
    {
      projects := projects - {projectName};
      permissions := set pp | pp in permissions && pp.project != projectName;
    }

    method PermissionsAdd(email: string, project: string)
      modifies this
      ensures State() == AfterPermissionsAdd(old(State()), email, project)
      ensures old(Valid()) ==> Valid()
    {
      if email !in users {
        users := users[email := NewUser(email)];
      }
      if project !in projects {
        projects := projects[project := ProjectDetails(project, None)];
      }
      permissions := permissions + {ProjectPermission(email, project)};
    }

    method PermissionsDelete(email: string, project: string)
      modifies this
      ensures State() == AfterPermissionsDelete(old(State()), email, project)
      ensures old(Valid()) ==> Valid()
    {
      permissions := set pp | pp in permissions && pp.project != project && pp.email != email;
    }

    method ProfileUpsert(config: ProfileConfig)
      modifies this
      ensures State() == AfterProfileUpsert(old(State()), config)
      ensures old(Valid()) ==> Valid()
    {
      profiles := profiles[config.name := config.(status := None)];
    }

    method ProfileDelete(profileName: string)
      modifies this
      ensures State() == AfterProfileDelete(old(State()), profileName)
      ensures old(Valid()) ==> Valid()
    {
      profiles := profiles - {profileName};
    }
  }
}
