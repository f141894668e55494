# Launcher profile document, modelled in Dafny

This project models the launcher-profile record classes of a game launcher
(`LauncherProfile.java`). They describe the launcher's profile document:

- the root document `LauncherProfile`: the client token, the selected user and
  profile, the map of profiles, the map of saved accounts and the version marker;
- its `Version` marker;
- one saved launch configuration, `LaunchProfile`, with its `LauncherVisibility`
  enum;
- one saved account, `AuthenticationDatabaseEntry`.

Files:

- `wrappers.dfy`: module `Wrappers`, an `Option` type. It stands for a Java
  reference that may be null.
- `launcher_profile.dfy`: module `LauncherJson`, the whole model.

How the Java becomes Dafny:

- **Null.** Every reference-typed Java field is an `Option`. That includes the
  fields whose getters are annotated `@NonNull`. The annotation is not enforced
  when the program runs, and the JSON library leaves a missing field null.
- **Records updated in place.** `LaunchProfile` and `AuthenticationDatabaseEntry`
  are classes with `var` fields. Each setter is a method that `modifies this`.
  Its contract ties the new state (`Fields()`) to a value-level function applied
  to the old state: `ApplyProfileCall` for launch profiles, `ApplyAuthCall` for
  accounts. Each function's own contract says that the call stores its argument
  in its own field and leaves every other field as it was. Lemmas over these
  functions cover two setter calls (commuting, overwriting) and any sequence of
  setter calls (what survives, what stays non-null).
- **Defaulting getters.** `getAllowedReleaseTypes` and
  `getLauncherVisibilityOnGameClose` are functions that `reads this`. A Dafny
  function cannot write, so the default they expose is never stored back.
- **Read-only records.** `LauncherProfile` and `Version` are classes with `const`
  fields and getter functions. Nothing can change them after construction.
- **Quirk kept: `profiles`.** As in the Java declaration, `profiles` maps names to
  root `LauncherProfile` documents, not to `LaunchProfile` records.
- **Quirk kept: `setName`.** `LaunchProfile.SetName` accepts null, although
  `getName` is declared non-null. `NullNameIsStored` documents this quirk. It is an instance of
  `ApplyProfileCall`'s contract. `NameStaysPresent` states the other side.
- **Wire phrases.** `LauncherVisibility` variants are written as fixed phrases,
  not as their constant names. `WirePhrase` and `VisibilityOfPhrase` give the
  table in both directions.

## Model

| member | source | states |
|---|---|---|
| LauncherJson.WirePhrase | api/src/main/java/me/minidigger/minecraftlauncher/api/json/launcher/LauncherProfile.java:149-158 | each variant's document phrase; no phrase equals any variant's constant name |
| LauncherJson.VisibilityOfPhrase | api/src/main/java/me/minidigger/minecraftlauncher/api/json/launcher/LauncherProfile.java:149-158 | a phrase maps to a variant only if it is that variant's phrase; an unknown phrase maps to no variant |
| LauncherJson.PhraseTable | api/src/main/java/me/minidigger/minecraftlauncher/api/json/launcher/LauncherProfile.java:149-158 | phrase lookup gives v exactly when the phrase is v's phrase, so variant to phrase and back is the identity |
| LauncherJson.WirePhrasesDistinct | api/src/main/java/me/minidigger/minecraftlauncher/api/json/launcher/LauncherProfile.java:149-158 | no two variants share a phrase |
| LauncherJson.SymbolicNamesAreNotPhrases | api/src/main/java/me/minidigger/minecraftlauncher/api/json/launcher/LauncherProfile.java:149-158 | a variant written by its constant name does not read back as any variant |
| LauncherJson.ApplyProfileCall | api/src/main/java/me/minidigger/minecraftlauncher/api/json/launcher/LauncherProfile.java:165-217 | a setter call stores its argument (null included) in its own field; every other field is unchanged |
| LauncherJson.ProfileSettersCommute | api/src/main/java/me/minidigger/minecraftlauncher/api/json/launcher/LauncherProfile.java:165-217 | setters of two different fields give the same profile in either order |
| LauncherJson.LaterProfileSetterWins | api/src/main/java/me/minidigger/minecraftlauncher/api/json/launcher/LauncherProfile.java:165-217 | a second call of the same setter fully overwrites the first |
| LauncherJson.ReleaseTypesSurviveSetters | api/src/main/java/me/minidigger/minecraftlauncher/api/json/launcher/LauncherProfile.java:143-217 | no setter writes allowedReleaseTypes: after any sequence of setter calls it is as it was (absent stays absent) |
| LauncherJson.NameStaysPresent | api/src/main/java/me/minidigger/minecraftlauncher/api/json/launcher/LauncherProfile.java:160-167 | the name stays non-null through any sequence of setter calls in which setName never gets null |
| LauncherJson.NullNameIsStored | api/src/main/java/me/minidigger/minecraftlauncher/api/json/launcher/LauncherProfile.java:160-167 | setName(null) stores null, so the non-null-annotated getName then returns null (an instance of ApplyProfileCall's contract, spelled out for the quirk) |
| LauncherJson.LaunchProfile.constructor | api/src/main/java/me/minidigger/minecraftlauncher/api/json/launcher/LauncherProfile.java:124-147 | a profile holding exactly the given stored fields, any of them possibly null |
| LauncherJson.LaunchProfile.GetName | api/src/main/java/me/minidigger/minecraftlauncher/api/json/launcher/LauncherProfile.java:160-163 | returns the stored name, possibly null |
| LauncherJson.LaunchProfile.SetName | api/src/main/java/me/minidigger/minecraftlauncher/api/json/launcher/LauncherProfile.java:165-167 | stores the argument, null included; getName returns it; the other six fields are unchanged |
| LauncherJson.LaunchProfile.GetLastVersionId | api/src/main/java/me/minidigger/minecraftlauncher/api/json/launcher/LauncherProfile.java:169-172 | returns the stored lastVersionId, possibly null |
| LauncherJson.LaunchProfile.SetLastVersionId | api/src/main/java/me/minidigger/minecraftlauncher/api/json/launcher/LauncherProfile.java:174-176 | stores the argument, null included; the getter returns it; the other fields are unchanged |
| LauncherJson.LaunchProfile.GetGameDir | api/src/main/java/me/minidigger/minecraftlauncher/api/json/launcher/LauncherProfile.java:178-181 | returns the stored gameDir, possibly null |
| LauncherJson.LaunchProfile.SetGameDir | api/src/main/java/me/minidigger/minecraftlauncher/api/json/launcher/LauncherProfile.java:183-185 | stores the argument, null included; the getter returns it; the other fields are unchanged |
| LauncherJson.LaunchProfile.GetJavaDir | api/src/main/java/me/minidigger/minecraftlauncher/api/json/launcher/LauncherProfile.java:187-190 | returns the stored javaDir, possibly null |
| LauncherJson.LaunchProfile.SetJavaDir | api/src/main/java/me/minidigger/minecraftlauncher/api/json/launcher/LauncherProfile.java:192-194 | stores the argument, null included; the getter returns it; the other fields are unchanged |
| LauncherJson.LaunchProfile.GetJavaArgs | api/src/main/java/me/minidigger/minecraftlauncher/api/json/launcher/LauncherProfile.java:196-199 | returns the stored javaArgs, possibly null |
| LauncherJson.LaunchProfile.SetJavaArgs | api/src/main/java/me/minidigger/minecraftlauncher/api/json/launcher/LauncherProfile.java:201-203 | stores the argument, null included; the getter returns it; the other fields are unchanged |
| LauncherJson.LaunchProfile.GetAllowedReleaseTypes | api/src/main/java/me/minidigger/minecraftlauncher/api/json/launcher/LauncherProfile.java:205-208 | the stored set when present, exactly {RELEASE} when absent; empty only if an empty set was stored; contains RELEASE iff absent or stored with it; never writes the default |
| LauncherJson.LaunchProfile.GetLauncherVisibilityOnGameClose | api/src/main/java/me/minidigger/minecraftlauncher/api/json/launcher/LauncherProfile.java:210-213 | the stored variant when present, CLOSE_ON_GAME_START when absent; any other result was stored; never writes the default |
| LauncherJson.LaunchProfile.SetLauncherVisibilityOnGameClose | api/src/main/java/me/minidigger/minecraftlauncher/api/json/launcher/LauncherProfile.java:215-217 | the field becomes exactly the argument; the getter then returns it, or CLOSE_ON_GAME_START for null; the other fields are unchanged |
| LauncherJson.ApplyAuthCall | api/src/main/java/me/minidigger/minecraftlauncher/api/json/launcher/LauncherProfile.java:241-279 | a setter call stores its argument in its own field (non-null except for the access token); every other field is unchanged |
| LauncherJson.AuthSettersCommute | api/src/main/java/me/minidigger/minecraftlauncher/api/json/launcher/LauncherProfile.java:241-279 | setters of two different fields give the same entry in either order |
| LauncherJson.LaterAuthSetterWins | api/src/main/java/me/minidigger/minecraftlauncher/api/json/launcher/LauncherProfile.java:241-279 | a second call of the same setter fully overwrites the first |
| LauncherJson.RequiredFieldsStayPresent | api/src/main/java/me/minidigger/minecraftlauncher/api/json/launcher/LauncherProfile.java:236-279 | once displayName, userid, uuid and username are non-null, no sequence of setter calls makes any of them null |
| LauncherJson.PresentFieldStays | api/src/main/java/me/minidigger/minecraftlauncher/api/json/launcher/LauncherProfile.java:236-279 | displayName, userid, uuid or username, once non-null, stays non-null through any sequence of setter calls |
| LauncherJson.NonNullSetterEstablishesField | api/src/main/java/me/minidigger/minecraftlauncher/api/json/launcher/LauncherProfile.java:241-279 | a call of a non-null setter anywhere in a sequence leaves its field non-null at the end |
| LauncherJson.RequiredSettersEstablishPresence | api/src/main/java/me/minidigger/minecraftlauncher/api/json/launcher/LauncherProfile.java:236-279 | a sequence that calls each of the four non-null setters at least once, in any order and interleaved with any other calls, leaves all four required fields non-null |
| LauncherJson.AuthenticationDatabaseEntry.constructor | api/src/main/java/me/minidigger/minecraftlauncher/api/json/launcher/LauncherProfile.java:220-234 | an entry holding exactly the given stored fields, any of them possibly null |
| LauncherJson.AuthenticationDatabaseEntry.GetDisplayName | api/src/main/java/me/minidigger/minecraftlauncher/api/json/launcher/LauncherProfile.java:236-239 | returns the stored displayName |
| LauncherJson.AuthenticationDatabaseEntry.SetDisplayName | api/src/main/java/me/minidigger/minecraftlauncher/api/json/launcher/LauncherProfile.java:241-243 | takes a non-null name and stores it; the getter returns it; the other fields are unchanged |
| LauncherJson.AuthenticationDatabaseEntry.GetAccessToken | api/src/main/java/me/minidigger/minecraftlauncher/api/json/launcher/LauncherProfile.java:245-248 | returns the stored access token, possibly null |
| LauncherJson.AuthenticationDatabaseEntry.SetAccessToken | api/src/main/java/me/minidigger/minecraftlauncher/api/json/launcher/LauncherProfile.java:250-252 | stores the argument, null included; the getter returns it; the other fields are unchanged |
| LauncherJson.AuthenticationDatabaseEntry.GetUserid | api/src/main/java/me/minidigger/minecraftlauncher/api/json/launcher/LauncherProfile.java:254-257 | returns the stored userid |
| LauncherJson.AuthenticationDatabaseEntry.SetUserid | api/src/main/java/me/minidigger/minecraftlauncher/api/json/launcher/LauncherProfile.java:259-261 | takes a non-null userid and stores it; the getter returns it; the other fields are unchanged |
| LauncherJson.AuthenticationDatabaseEntry.GetUuid | api/src/main/java/me/minidigger/minecraftlauncher/api/json/launcher/LauncherProfile.java:263-266 | returns the stored uuid |
| LauncherJson.AuthenticationDatabaseEntry.SetUuid | api/src/main/java/me/minidigger/minecraftlauncher/api/json/launcher/LauncherProfile.java:268-270 | takes a non-null uuid and stores it; the getter returns it; the other fields are unchanged |
| LauncherJson.AuthenticationDatabaseEntry.GetUsername | api/src/main/java/me/minidigger/minecraftlauncher/api/json/launcher/LauncherProfile.java:272-275 | returns the stored username |
| LauncherJson.AuthenticationDatabaseEntry.SetUsername | api/src/main/java/me/minidigger/minecraftlauncher/api/json/launcher/LauncherProfile.java:277-279 | takes a non-null username and stores it; the getter returns it; the other fields are unchanged |
| LauncherJson.Version.constructor | api/src/main/java/me/minidigger/minecraftlauncher/api/json/launcher/LauncherProfile.java:100-108 | a version marker holding the given name, format and profilesFormat, fixed from then on |
| LauncherJson.Version.GetName | api/src/main/java/me/minidigger/minecraftlauncher/api/json/launcher/LauncherProfile.java:110-113 | returns the stored name; the field is constant |
| LauncherJson.Version.GetFormat | api/src/main/java/me/minidigger/minecraftlauncher/api/json/launcher/LauncherProfile.java:115-117 | returns the stored 32-bit format; the field is constant |
| LauncherJson.Version.GetProfilesFormat | api/src/main/java/me/minidigger/minecraftlauncher/api/json/launcher/LauncherProfile.java:119-121 | returns the stored 32-bit profilesFormat; the field is constant |
| LauncherJson.LauncherProfile.constructor | api/src/main/java/me/minidigger/minecraftlauncher/api/json/launcher/LauncherProfile.java:52-68 | a root document holding the given six fields, fixed from then on; profiles maps to root documents |
| LauncherJson.LauncherProfile.GetClientToken | api/src/main/java/me/minidigger/minecraftlauncher/api/json/launcher/LauncherProfile.java:70-73 | returns the stored client token; the field is constant |
| LauncherJson.LauncherProfile.GetSelectedUser | api/src/main/java/me/minidigger/minecraftlauncher/api/json/launcher/LauncherProfile.java:75-78 | returns the stored selected user; the field is constant |
| LauncherJson.LauncherProfile.GetSelectedProfile | api/src/main/java/me/minidigger/minecraftlauncher/api/json/launcher/LauncherProfile.java:80-83 | returns the stored selected profile; the field is constant |
| LauncherJson.LauncherProfile.GetProfiles | api/src/main/java/me/minidigger/minecraftlauncher/api/json/launcher/LauncherProfile.java:85-88 | returns the stored map of names to root documents; the field is constant |
| LauncherJson.LauncherProfile.GetAuthenticationDatabase | api/src/main/java/me/minidigger/minecraftlauncher/api/json/launcher/LauncherProfile.java:90-93 | returns the stored map of saved accounts; the field is constant |
| LauncherJson.LauncherProfile.GetLauncherVersion | api/src/main/java/me/minidigger/minecraftlauncher/api/json/launcher/LauncherProfile.java:95-98 | returns the stored version marker; the field is constant |

## Left out

- JSON encoding and decoding are not modelled. The JSON library does this work, guided by the field-name annotations, and it is not part of this model. The phrase table of `LauncherVisibility` is kept as data.
- The textual form and the generation of UUIDs belong to `java.util.UUID`, which is not part of this model. `Uuid` is an opaque pair of 64-bit halves.
- `VersionType` is not part of this model beyond its `RELEASE` constant. Its other channels are left unnamed (`Unlisted`).
- The code never checks that `selectedUser` and `selectedProfile` name keys of their maps, so the model states no such invariant.
- The getters return Java objects by reference: the live `Map`s of the root and the stored `Set` of allowed release types. The model returns them as values, so a caller changing a map or the set through the returned reference is not modelled. This includes the `profiles` values, which are immutable root documents in the model. Saved-account entries stay shared by reference, as in Java: an entry held under two keys or by two documents is one object.
- The `@NonNull` return annotations are not enforced when the program runs, so the model's getters return `Option`.
- AuthenticationDatabaseEntry.SetDisplayName, AuthenticationDatabaseEntry.SetUserid, AuthenticationDatabaseEntry.SetUuid and AuthenticationDatabaseEntry.SetUsername take non-`Option` parameters. These model the setters' declared `@NonNull` contract.
- Nothing in the build enforces that `@NonNull` contract. Only the annotation jar is declared and no nullness checker runs. At run time these four setters store a null like any other setter, and the model does not capture that.
- RequiredFieldsStayPresent and RequiredSettersEstablishPresence therefore hold only for callers that honour the `@NonNull` parameter annotations.
- Null entries inside containers are not modelled. Java allows a null value in the `profiles` and `authenticationDatabase` maps and a null element in the `allowedReleaseTypes` set. The JSON library produces them from a JSON null map value or an unknown release-type string. The model's `map<string, …>` and `set<VersionType>` have no null entries. So the case where `getAllowedReleaseTypes` returns a set containing null is not captured.
- The build scripts hold only dependency declarations and are not part of this model.
