/** The value types held by the metadata service: users, projects, profiles and
    the (email, project) permissions that connect users to projects. */
module Metadata {
  import opened Wrappers

  /** A user; every field except the e-mail may be absent. `projects` is only
      filled in on the way out (see `Queries.UsersByEmail`); the stored record
      keeps it absent because permissions are kept apart. */
  datatype UserDetails = UserDetails(
    email: string,
    firstName: Option<string>,
    lastName: Option<string>,
    institution: Option<string>,
    admin: Option<bool>,
    projects: Option<set<string>>)

  /** A project; like a user's projects, its users are derived from the permissions. */
  datatype ProjectDetails = ProjectDetails(name: string, users: Option<set<string>>)

  /** The grant of the researcher role on `project` to the user `email`. */
  datatype ProjectPermission = ProjectPermission(email: string, project: string)

  /** The run state of a profile's container, as reported by the profile service. */
  datatype ProfileStatus = ProfileStatus(state: string)

  /** An analysis profile: the container image that serves a DataSHIELD environment. */
  datatype ProfileConfig = ProfileConfig(
    name: string,
    image: string,
    host: string,
    port: int,
    whitelist: set<string>,
    options: map<string, string>,
    status: Option<ProfileStatus>)

  /** The whole metadata: users by e-mail, projects by name, profiles by name,
      and the set of permissions. */
  datatype Settings = Settings(
    users: map<string, UserDetails>,
    projects: map<string, ProjectDetails>,
    profiles: map<string, ProfileConfig>,
    permissions: set<ProjectPermission>)

  /** The typed exceptions raised for lookups of an unknown key. */
  datatype MetadataError =
    | UnknownUser(email: string)
    | UnknownProject(projectName: string)
    | UnknownProfile(profileName: string)

  /** A user known by e-mail only, as created when a permission or a project
      mentions an e-mail that has no user yet. */
  function NewUser(email: string): UserDetails
  {
    UserDetails(email, None, None, None, None, None)
  }

  /** A stored user: keyed by its own e-mail, permissions kept apart. */
  ghost predicate StoredUser(key: string, u: UserDetails)
  {
    u.email == key && u.projects == None
  }

  /** A stored project: keyed by its own name, its users kept apart (an empty
      set or absent). */
  ghost predicate StoredProject(key: string, d: ProjectDetails)
  {
    d.name == key && (d.users == None || d.users == Some({}))
  }

  /** A stored profile: keyed by its own name, without a status. */
  ghost predicate StoredProfile(key: string, c: ProfileConfig)
  {
    c.name == key && c.status == None
  }

  /** The invariant that every operation of the service keeps: records sit under
      their own key, stored users and projects carry no permissions of their own,
      and every permission names a user and a project that exist. */
  ghost predicate Consistent(s: Settings)
  {
    && (forall e :: e in s.users ==> StoredUser(e, s.users[e]))
    && (forall p :: p in s.projects ==> StoredProject(p, s.projects[p]))
    && (forall n :: n in s.profiles ==> StoredProfile(n, s.profiles[n]))
    && (forall pp :: pp in s.permissions ==> pp.email in s.users && pp.project in s.projects)
  }

  /** The metadata of a first start, when no metadata file exists yet. */
  function Empty(): (s: Settings)
    ensures Consistent(s)
  {
    Settings(map[], map[], map[], {})
  }
}
