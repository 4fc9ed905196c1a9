# Armadillo metadata service, modelled in Dafny

Armadillo serves DataSHIELD analyses. Its metadata service, `ArmadilloMetadataService`, is the access-control registry. It holds four collections:

- users, keyed by e-mail;
- projects, keyed by name;
- analysis profiles, keyed by name;
- a set of `(email, project)` permissions.

Every permission grants a researcher role on one project. The service keeps permissions apart from the user and project records. A user's projects and a project's users are derived from the permissions whenever a record is read. The service also derives the role strings that the security layer checks (`ROLE_<PROJECT>_RESEARCHER`, `ROLE_SU`).

Files (one module each):

- `wrappers.dfy` (`Wrappers`): `Option` for Java `null`, `Result`/`Outcome` for the typed exceptions.
- `metadata.dfy` (`Metadata`): the records and the `Settings` value (the service's `ArmadilloMetadata`). It also holds the invariant `Consistent`: records sit under their own key, stored users and projects carry no permission lists, profiles carry no status, and every permission names an existing user and an existing project.
- `queries.dfy` (`Queries`): the read operations as functions of the metadata (`usersByEmail`, `projectsByName`, the listings, `getPermissionsForEmail`, `isSuperUser`, `getAuthoritiesForEmail`). `PermissionsList` is the stored set itself.
- `updates.dfy` (`Updates`): for each changing operation, the metadata after it as a function of the metadata before it. Each function's contract states the operation's effect and that it keeps `Consistent`.
- `service.dfy` (`Service`): the class `MetadataService` with the four collections as fields. Its methods change them in place. `userUpsert` and `projectsUpsert` iterate over the listed projects or users with a `putIfAbsent` per element. Each method is proved to leave exactly the state given by the matching `Updates` function.
- `properties.dfy` (`Properties`): lemmas that relate operations. They cover reading back after an upsert, idempotence, roles revoked by deletion, the role-derivation equivalences, and the size of the listings.

## Model

| member | source | states |
|---|---|---|
| Metadata.Empty | armadillo/src/main/java/org/molgenis/armadillo/metadata/ArmadilloMetadataService.java:353-356 | the metadata of a first start (no file yet) satisfies the invariant |
| Service.MetadataService.constructor | armadillo/src/main/java/org/molgenis/armadillo/metadata/ArmadilloMetadataService.java:41-48 | a new service holds the first-start metadata, which is consistent |
| Queries.PermissionsForEmail | armadillo/src/main/java/org/molgenis/armadillo/metadata/ArmadilloMetadataService.java:329-334 | `p` is in the result iff `(email, p)` is a permission |
| Queries.UsersOfProject | armadillo/src/main/java/org/molgenis/armadillo/metadata/ArmadilloMetadataService.java:163-169 | `e` is in the result iff `(e, project)` is a permission |
| Queries.UsersByEmail | armadillo/src/main/java/org/molgenis/armadillo/metadata/ArmadilloMetadataService.java:301-314 | an unknown e-mail gives `UnknownUser`; otherwise the stored fields, with projects present and exactly the projects the e-mail holds a permission on |
| Queries.UsersList | armadillo/src/main/java/org/molgenis/armadillo/metadata/ArmadilloMetadataService.java:85-87 | every stored user appears as `usersByEmail` gives it, and nothing else appears |
| Queries.ProjectsByName | armadillo/src/main/java/org/molgenis/armadillo/metadata/ArmadilloMetadataService.java:158-170 | an unknown name gives `UnknownProject`; otherwise the project under that name with exactly the e-mails holding a permission on it |
| Queries.ProjectsList | armadillo/src/main/java/org/molgenis/armadillo/metadata/ArmadilloMetadataService.java:154-156 | every stored project appears as `projectsByName` gives it, and nothing else appears |
| Queries.ProfileByName | armadillo/src/main/java/org/molgenis/armadillo/metadata/ArmadilloMetadataService.java:226-240 | an unknown name gives `UnknownProfile`; otherwise the stored configuration with the status the profile service reports for it |
| Queries.ProfileList | armadillo/src/main/java/org/molgenis/armadillo/metadata/ArmadilloMetadataService.java:222-224 | exactly the stored profile configurations |
| Service.MetadataService.State | armadillo/src/main/java/org/molgenis/armadillo/metadata/ArmadilloMetadataService.java:81-83 | `settingsList`: the whole metadata, that is the four collections the service holds |
| Queries.PermissionsList | armadillo/src/main/java/org/molgenis/armadillo/metadata/ArmadilloMetadataService.java:266-268 | `permissionsList`: exactly the stored permissions; under the invariant each names a user and a project that `usersByEmail` and `projectsByName` find |
| Queries.IsSuperUser | armadillo/src/main/java/org/molgenis/armadillo/metadata/ArmadilloMetadataService.java:336-339 | true iff the user exists and its admin flag is `TRUE`; an absent (null) flag gives false |
| Queries.Upper | armadillo/src/main/java/org/molgenis/armadillo/metadata/ArmadilloMetadataService.java:61-69 | upper case keeps the length, maps each character, and leaves no lower-case ASCII letter |
| Queries.AuthoritiesForEmail | armadillo/src/main/java/org/molgenis/armadillo/metadata/ArmadilloMetadataService.java:50-79 | contains the researcher role of every permitted project, `ROLE_SU` for an admin and, when identity-provider roles are enabled, every claimed role (upper-cased, prefixed `ROLE_`), and nothing else |
| Updates.AddMissingProjects | armadillo/src/main/java/org/molgenis/armadillo/metadata/ArmadilloMetadataService.java:99-111 | `putIfAbsent` of an empty project per name: existing projects are kept, missing ones are added empty |
| Updates.AddMissingUsers | armadillo/src/main/java/org/molgenis/armadillo/metadata/ArmadilloMetadataService.java:185-193 | `putIfAbsent` of a bare user per e-mail: existing users are kept, missing ones are added |
| Updates.AfterUserUpsert | armadillo/src/main/java/org/molgenis/armadillo/metadata/ArmadilloMetadataService.java:89-131 | the user's permissions become exactly one per listed project (none for an absent list); other users' permissions are unchanged; listed projects exist, missing ones are created with an empty user set, and existing projects are not overwritten; the user is stored without projects; the invariant is kept |
| Updates.AfterUserDelete | armadillo/src/main/java/org/molgenis/armadillo/metadata/ArmadilloMetadataService.java:133-152 | an unknown e-mail gives `UnknownUser`; otherwise the user and exactly the user's permissions are removed, and projects, profiles and other users are unchanged; the invariant is kept |
| Updates.AfterProjectsUpsert | armadillo/src/main/java/org/molgenis/armadillo/metadata/ArmadilloMetadataService.java:172-204 | the project's permissions become exactly one per listed user; other projects' permissions are unchanged; listed users exist, missing ones are created as bare users (no names, no admin flag), and existing users are not overwritten; the project is stored with an empty user set; the invariant is kept |
| Updates.AfterProjectsDelete | armadillo/src/main/java/org/molgenis/armadillo/metadata/ArmadilloMetadataService.java:206-220 | the project and exactly the permissions on it are removed; an absent name is no error; users and profiles are unchanged; the invariant is kept |
| Updates.AfterPermissionsAdd | armadillo/src/main/java/org/molgenis/armadillo/metadata/ArmadilloMetadataService.java:270-279 | the permission is added; the user and project exist afterwards, and existing entries are not overwritten; the invariant is kept |
| Updates.AfterPermissionsDelete | armadillo/src/main/java/org/molgenis/armadillo/metadata/ArmadilloMetadataService.java:281-299 | keeps exactly the permissions that are neither of the e-mail nor on the project; users, projects and profiles are unchanged; the invariant is kept |
| Updates.AfterProfileUpsert | armadillo/src/main/java/org/molgenis/armadillo/metadata/ArmadilloMetadataService.java:242-258 | the profile is stored under its name without a status, and other profiles are unchanged; the invariant is kept |
| Updates.AfterProfileDelete | armadillo/src/main/java/org/molgenis/armadillo/metadata/ArmadilloMetadataService.java:260-264 | the profile is removed and the rest is unchanged; the invariant is kept |
| Service.MetadataService.UserUpsert | armadillo/src/main/java/org/molgenis/armadillo/metadata/ArmadilloMetadataService.java:89-131 | the in-place update, with its loop over the listed projects, leaves exactly `AfterUserUpsert` of the old state |
| Service.MetadataService.UserDelete | armadillo/src/main/java/org/molgenis/armadillo/metadata/ArmadilloMetadataService.java:133-152 | raises `UnknownUser` without change for an unknown e-mail; otherwise leaves exactly `AfterUserDelete` of the old state |
| Service.MetadataService.ProjectsUpsert | armadillo/src/main/java/org/molgenis/armadillo/metadata/ArmadilloMetadataService.java:172-204 | the in-place update, with its loop over the listed users, leaves exactly `AfterProjectsUpsert` of the old state |
| Service.MetadataService.ProjectsDelete | armadillo/src/main/java/org/molgenis/armadillo/metadata/ArmadilloMetadataService.java:206-220 | leaves exactly `AfterProjectsDelete` of the old state |
| Service.MetadataService.PermissionsAdd | armadillo/src/main/java/org/molgenis/armadillo/metadata/ArmadilloMetadataService.java:270-279 | leaves exactly `AfterPermissionsAdd` of the old state |
| Service.MetadataService.PermissionsDelete | armadillo/src/main/java/org/molgenis/armadillo/metadata/ArmadilloMetadataService.java:281-299 | leaves exactly `AfterPermissionsDelete` of the old state |
| Service.MetadataService.ProfileUpsert | armadillo/src/main/java/org/molgenis/armadillo/metadata/ArmadilloMetadataService.java:242-258 | leaves exactly `AfterProfileUpsert` of the old state |
| Service.MetadataService.ProfileDelete | armadillo/src/main/java/org/molgenis/armadillo/metadata/ArmadilloMetadataService.java:260-264 | leaves exactly `AfterProfileDelete` of the old state |
| Properties.UserUpsertThenUsersByEmail | armadillo/src/main/java/org/molgenis/armadillo/metadata/ArmadilloMetadataService.java:89-131 | reading a user back after an upsert gives the upserted record with exactly its listed projects |
| Properties.ProjectsUpsertThenProjectsByName | armadillo/src/main/java/org/molgenis/armadillo/metadata/ArmadilloMetadataService.java:172-204 | reading a project back after an upsert gives the project with exactly its listed users |
| Properties.ProfileUpsertThenProfileByName | armadillo/src/main/java/org/molgenis/armadillo/metadata/ArmadilloMetadataService.java:242-258 | reading a profile back after an upsert gives the stored configuration with the reported status |
| Properties.ViewsAgree | armadillo/src/main/java/org/molgenis/armadillo/metadata/ArmadilloMetadataService.java:158-170 | a user lists a project iff that project lists the user |
| Properties.UserDeleteRevokesRoles | armadillo/src/main/java/org/molgenis/armadillo/metadata/ArmadilloMetadataService.java:133-152 | after deleting a user, the user is unknown and no role is derived for it from stored data |
| Properties.ProjectsDeleteRevokesProject | armadillo/src/main/java/org/molgenis/armadillo/metadata/ArmadilloMetadataService.java:206-220 | after deleting a project, it is unknown and no user holds a permission on it |
| Properties.PermissionsDeleteRevokesUserAndProject | armadillo/src/main/java/org/molgenis/armadillo/metadata/ArmadilloMetadataService.java:281-299 | after `permissionsDelete(e, p)`, `e` holds no permission at all and `p` has no user at all |
| Properties.PermissionsAddGrants | armadillo/src/main/java/org/molgenis/armadillo/metadata/ArmadilloMetadataService.java:270-279 | after `permissionsAdd(e, p)`, both views show the permission and the researcher role on `p` is derived for `e` |
| Properties.PermissionsAddIdempotent | armadillo/src/main/java/org/molgenis/armadillo/metadata/ArmadilloMetadataService.java:270-279 | adding a permission twice gives the same metadata as adding it once |
| Properties.UserUpsertIdempotent | armadillo/src/main/java/org/molgenis/armadillo/metadata/ArmadilloMetadataService.java:89-131 | upserting the same user twice gives the same metadata as once |
| Properties.ProjectsUpsertIdempotent | armadillo/src/main/java/org/molgenis/armadillo/metadata/ArmadilloMetadataService.java:172-204 | upserting the same project twice gives the same metadata as once |
| Properties.SuperUserRoleIsNoResearcherRole | armadillo/src/main/java/org/molgenis/armadillo/metadata/ArmadilloMetadataService.java:69-75 | no researcher role can be mistaken for `ROLE_SU` |
| Properties.SuperUserRoleIff | armadillo/src/main/java/org/molgenis/armadillo/metadata/ArmadilloMetadataService.java:56-76 | `ROLE_SU` is derived iff the user exists with admin set (an absent flag gives none), or identity-provider roles are enabled and a claimed role upper-cases to `SU` |
| Properties.ResearcherRoleInjective | armadillo/src/main/java/org/molgenis/armadillo/metadata/ArmadilloMetadataService.java:69 | two researcher roles are equal only for project names equal up to case |
| Properties.ResearcherRoleIff | armadillo/src/main/java/org/molgenis/armadillo/metadata/ArmadilloMetadataService.java:66-71 | without identity-provider roles, the researcher role of `q` is derived iff the user holds a permission on a project equal to `q` up to case |
| Properties.UserUpsertSuperUser | armadillo/src/main/java/org/molgenis/armadillo/metadata/ArmadilloMetadataService.java:89-131 | without identity-provider roles, after a user upsert `ROLE_SU` is derived iff the upserted record has admin set |
| Properties.UserViewsSize | armadillo/src/main/java/org/molgenis/armadillo/metadata/ArmadilloMetadataService.java:85-87 | distinct stored e-mails give distinct listed users |
| Properties.UsersListSize | armadillo/src/main/java/org/molgenis/armadillo/metadata/ArmadilloMetadataService.java:85-87 | the user listing has one entry per stored user |
| Properties.ProjectViewsSize | armadillo/src/main/java/org/molgenis/armadillo/metadata/ArmadilloMetadataService.java:154-156 | distinct project names give distinct listed projects |
| Properties.ProjectsListSize | armadillo/src/main/java/org/molgenis/armadillo/metadata/ArmadilloMetadataService.java:154-156 | the project listing has one entry per stored project |

## Left out

- Persistence is not modelled. This covers `save()`, `reload()`, the JSON (de)serialisation and the storage calls `saveSystemFile`, `loadSystemFile`, `upsertProject` and `deleteProject`. `save()` is treated as keeping the in-memory state, and a `StorageException` from it is not modelled. The service starts from the first-start metadata, because a metadata file read from storage is I/O.
- The process exit on an unreadable metadata file is not modelled.
- The profile service is not modelled. `startProfile`, `removeProfile` and the `InterruptedException` are container lifecycle. `getProfileStatus` becomes the function parameter `statusOf`.
- Method security (`@PreAuthorize`) and locking (`synchronized`) are not modelled. The model is sequential.
- `Objects.requireNonNull` checks are not modelled, because strings are never null in the model.
- `UserDetails.create(email)` is not part of this model. It is taken to leave every other field absent, like the explicit nulls in `permissionsAdd` (`Metadata.NewUser`).
- A `roles` claim that is not a collection (a `ClassCastException` in the Java service) is not modelled. Claims are a map from names to lists of strings.
- Aliasing is not modelled: `settingsList` and `permissionsList` hand out the service's live objects, so a caller that changes them changes the service; `MetadataService.State` and `Queries.PermissionsList` return values.
- Queries.Upper: ASCII letters only; Java's locale- and Unicode-aware `toUpperCase` is not modelled.
- Queries.AuthoritiesForEmail: a set of role strings, not the Java service's list, so the order and the duplicates of that list are not modelled.
- Queries.UsersList: a set, not a list in the user map's iteration order; `Properties.UsersListSize` shows that no entry is lost.
- Queries.ProjectsList: a set, not a list in the project map's iteration order; `Properties.ProjectsListSize` shows that no entry is lost.
- Queries.ProfileList: a set of the stored configurations, not a list.
- The DataSHIELD `Commands` component is separate and not modelled here.
