/**
 * The launcher-profile document of a game launcher: the root document, its
 * version marker, the saved launch profiles and the saved accounts.
 *
 * Every Java reference-typed field may be null (the JSON library leaves a
 * missing field null, whatever the @NonNull annotations on the getters say),
 * so each one is an `Option` here. Records the source updates in place
 * (`LaunchProfile`, `AuthenticationDatabaseEntry`) are classes with `var`
 * fields; records it only reads (`LauncherProfile`, `Version`) are classes
 * with `const` fields.
 */
module LauncherJson {
  import opened Wrappers

  /** A Java `int`. */
  newtype Int32 = x: int | -0x8000_0000 <= x < 0x8000_0000

  /** A `java.util.UUID`: two 64-bit halves; its textual form is not modelled. */
  datatype Uuid = Uuid(mostSigBits: bv64, leastSigBits: bv64)

  /** Release channels of the game. Only `Release` is named by the launcher-profile
      code; the other channels are left unnamed. */
  datatype VersionType = Release | Unlisted(ordinal: nat)

  // ---------------------------------------------------------------------------
  // LauncherVisibility and its wire phrases
  // ---------------------------------------------------------------------------

  /** What the launcher window does when the game is started. */
  datatype LauncherVisibility = CloseOnGameStart | HideUntilGameClose | KeepOpen

  /** The Java constant name of each variant; a specification helper for
      `WirePhrase` and `SymbolicNamesAreNotPhrases`, which state that the
      document does not use these names. */
  function SymbolicName(v: LauncherVisibility): string
  {
    match v
    case CloseOnGameStart => "CLOSE_ON_GAME_START"
    case HideUntilGameClose => "HIDE_UNTIL_GAME_CLOSE"
    case KeepOpen => "KEEP_OPEN"
  }

  /** The phrase each variant is written as in the document. It is never the
      variant's constant name. */
  function WirePhrase(v: LauncherVisibility): (r: string)
    ensures forall w :: r != SymbolicName(w)
  {
    match v
    case CloseOnGameStart => "close launcher when game starts"
    case HideUntilGameClose => "hide launcher and re-open when game closes"
    case KeepOpen => "keep the launcher open"
  }

  /** The variant a phrase of the document stands for, if any. */
  function VisibilityOfPhrase(s: string): (r: Option<LauncherVisibility>)
    ensures r.Some? ==> WirePhrase(r.value) == s
    ensures r.None? ==> forall v :: WirePhrase(v) != s
  {
    if s == WirePhrase(CloseOnGameStart) then Some(CloseOnGameStart)
    else if s == WirePhrase(HideUntilGameClose) then Some(HideUntilGameClose)
    else if s == WirePhrase(KeepOpen) then Some(KeepOpen)
    else None
  }

  /** The phrase table is a bijection between the variants and their phrases:
      a phrase maps to a variant exactly when it is that variant's phrase. */
  lemma PhraseTable(s: string, v: LauncherVisibility)
    ensures VisibilityOfPhrase(s) == Some(v) <==> s == WirePhrase(v)
  {
  }

  /** No two variants share a phrase. */
  lemma WirePhrasesDistinct(v: LauncherVisibility, w: LauncherVisibility)
    ensures WirePhrase(v) == WirePhrase(w) ==> v == w
  {
  }

  /** Writing a variant by its constant name does not read back: the name is
      no phrase of the table. */
  lemma SymbolicNamesAreNotPhrases(v: LauncherVisibility)
    ensures VisibilityOfPhrase(SymbolicName(v)) == None
  {
  }

  // ---------------------------------------------------------------------------
  // LaunchProfile: stored state and its setter calls, as values
  // ---------------------------------------------------------------------------

  /** The stored fields of a launch profile; `None` is a null field. */
  datatype LaunchProfileFields = LaunchProfileFields(
    name: Option<string>,
    lastVersionId: Option<string>,
    gameDir: Option<string>,
    javaDir: Option<string>,
    javaArgs: Option<string>,
    allowedReleaseTypes: Option<set<VersionType>>,
    launcherVisibilityOnGameClose: Option<LauncherVisibility>)

  /** The fields of a launch profile, by name. */
  datatype ProfileField =
    | NameField | LastVersionIdField | GameDirField | JavaDirField | JavaArgsField
    | AllowedReleaseTypesField | VisibilityField

  /** Whether two profiles hold the same value in field `f`. */
  predicate ProfilesAgreeOn(p: LaunchProfileFields, q: LaunchProfileFields, f: ProfileField)
  {
    match f
    case NameField => p.name == q.name
    case LastVersionIdField => p.lastVersionId == q.lastVersionId
    case GameDirField => p.gameDir == q.gameDir
    case JavaDirField => p.javaDir == q.javaDir
    case JavaArgsField => p.javaArgs == q.javaArgs
    case AllowedReleaseTypesField => p.allowedReleaseTypes == q.allowedReleaseTypes
    case VisibilityField => p.launcherVisibilityOnGameClose == q.launcherVisibilityOnGameClose
  }

  /** A call of one of the six setters of a launch profile, with its argument.
      There is no setter for `allowedReleaseTypes`. */
  datatype ProfileCall =
    | SetNameCall(newName: Option<string>)
    | SetLastVersionIdCall(newLastVersionId: Option<string>)
    | SetGameDirCall(newGameDir: Option<string>)
    | SetJavaDirCall(newJavaDir: Option<string>)
    | SetJavaArgsCall(newJavaArgs: Option<string>)
    | SetVisibilityCall(newVisibility: Option<LauncherVisibility>)

  /** The field a setter call writes. */
  function ProfileCallTarget(c: ProfileCall): ProfileField
  {
    match c
    case SetNameCall(_) => NameField
    case SetLastVersionIdCall(_) => LastVersionIdField
    case SetGameDirCall(_) => GameDirField
    case SetJavaDirCall(_) => JavaDirField
    case SetJavaArgsCall(_) => JavaArgsField
    case SetVisibilityCall(_) => VisibilityField
  }

  /** Whether `p` holds the argument of `c` in the field `c` writes. */
  predicate HoldsProfileArgument(p: LaunchProfileFields, c: ProfileCall)
  {
    match c
    case SetNameCall(n) => p.name == n
    case SetLastVersionIdCall(n) => p.lastVersionId == n
    case SetGameDirCall(n) => p.gameDir == n
    case SetJavaDirCall(n) => p.javaDir == n
    case SetJavaArgsCall(n) => p.javaArgs == n
    case SetVisibilityCall(n) => p.launcherVisibilityOnGameClose == n
  }

  /** The profile after one setter call: the argument, null included, is stored
      in the call's own field and every other field is left as it was. */
  function ApplyProfileCall(p: LaunchProfileFields, c: ProfileCall): (r: LaunchProfileFields)
    ensures HoldsProfileArgument(r, c)
    ensures forall f :: f != ProfileCallTarget(c) ==> ProfilesAgreeOn(r, p, f)
  {
    match c
    case SetNameCall(n) => p.(name := n)
    case SetLastVersionIdCall(n) => p.(lastVersionId := n)
    case SetGameDirCall(n) => p.(gameDir := n)
    case SetJavaDirCall(n) => p.(javaDir := n)
    case SetJavaArgsCall(n) => p.(javaArgs := n)
    case SetVisibilityCall(n) => p.(launcherVisibilityOnGameClose := n)
  }

  /** The profile after a sequence of setter calls, made in order. */
  function ApplyProfileCalls(p: LaunchProfileFields, cs: seq<ProfileCall>): LaunchProfileFields
    decreases |cs|
  {
    if cs == [] then p else ApplyProfileCalls(ApplyProfileCall(p, cs[0]), cs[1..])
  }

  /** Setters of different fields do not interfere: their order does not matter. */
  lemma ProfileSettersCommute(p: LaunchProfileFields, a: ProfileCall, b: ProfileCall)
    requires ProfileCallTarget(a) != ProfileCallTarget(b)
    ensures ApplyProfileCall(ApplyProfileCall(p, a), b) == ApplyProfileCall(ApplyProfileCall(p, b), a)
  {
  }

  /** A later call of the same setter overwrites the earlier one completely. */
  lemma LaterProfileSetterWins(p: LaunchProfileFields, a: ProfileCall, b: ProfileCall)
    requires ProfileCallTarget(a) == ProfileCallTarget(b)
    ensures ApplyProfileCall(ApplyProfileCall(p, a), b) == ApplyProfileCall(p, b)
  {
  }

  /** No setter writes `allowedReleaseTypes`: whatever setters are called, the
      stored set (or its absence, and so the `{RELEASE}` default) stays. */
  lemma {:induction false} ReleaseTypesSurviveSetters(p: LaunchProfileFields, cs: seq<ProfileCall>)
    ensures ApplyProfileCalls(p, cs).allowedReleaseTypes == p.allowedReleaseTypes
    decreases |cs|
  {
    if cs != [] {
      var q := ApplyProfileCall(p, cs[0]);
      assert ProfilesAgreeOn(q, p, AllowedReleaseTypesField);
      ReleaseTypesSurviveSetters(q, cs[1..]);
    }
  }

  /** `getName` is declared non-null, but `setName` accepts null. The name stays
      non-null as long as no caller passes null to `setName`. */
  lemma {:induction false} NameStaysPresent(p: LaunchProfileFields, cs: seq<ProfileCall>)
    requires p.name.Some?
    requires forall i :: 0 <= i < |cs| && cs[i].SetNameCall? ==> cs[i].newName.Some?
    ensures ApplyProfileCalls(p, cs).name.Some?
    decreases |cs|
  {
    if cs != [] {
      var q := ApplyProfileCall(p, cs[0]);
      if !cs[0].SetNameCall? {
        assert ProfilesAgreeOn(q, p, NameField);
      }
      forall i | 0 <= i < |cs[1..]| && cs[1..][i].SetNameCall?
        ensures cs[1..][i].newName.Some?
      {
        assert cs[1..][i] == cs[i + 1];
      }
      NameStaysPresent(q, cs[1..]);
    }
  }

  /** Passing null to `setName` is accepted and stored, so the @NonNull
      `getName` then returns null. This is one instance of the first `ensures`
      of `ApplyProfileCall`, spelled out to document the quirk. */
  lemma NullNameIsStored(p: LaunchProfileFields)
    ensures ApplyProfileCall(p, SetNameCall(None)).name == None
  {
  }

  // ---------------------------------------------------------------------------
  // LaunchProfile: the mutable record
  // ---------------------------------------------------------------------------

  /** One saved game-launch configuration. */
  class LaunchProfile {
    var name: Option<string>
    var lastVersionId: Option<string>
    var gameDir: Option<string>
    var javaDir: Option<string>
    var javaArgs: Option<string>
    var allowedReleaseTypes: Option<set<VersionType>>
    var launcherVisibilityOnGameClose: Option<LauncherVisibility>

    /** The stored state, as a value. */
    function Fields(): LaunchProfileFields
      reads this
    {
      LaunchProfileFields(name, lastVersionId, gameDir, javaDir, javaArgs,
                          allowedReleaseTypes, launcherVisibilityOnGameClose)
    }

    /** A profile as the JSON library leaves it: any field may be null. */
    constructor (stored: LaunchProfileFields)
      ensures Fields() == stored
    {
      name := stored.name;
      lastVersionId := stored.lastVersionId;
      gameDir := stored.gameDir;
      javaDir := stored.javaDir;
      javaArgs := stored.javaArgs;
      allowedReleaseTypes := stored.allowedReleaseTypes;
      launcherVisibilityOnGameClose := stored.launcherVisibilityOnGameClose;
    }

    function GetName(): (r: Option<string>)
      reads this
      ensures r == Fields().name
    {
      name
    }

    method SetName(newName: Option<string>)
      modifies this
      ensures Fields() == ApplyProfileCall(old(Fields()), SetNameCall(newName))
      ensures GetName() == newName
    {
      name := newName;
    }

    function GetLastVersionId(): (r: Option<string>)
      reads this
      ensures r == Fields().lastVersionId
    {
      lastVersionId
    }

    method SetLastVersionId(newLastVersionId: Option<string>)
      modifies this
      ensures Fields() == ApplyProfileCall(old(Fields()), SetLastVersionIdCall(newLastVersionId))
      ensures GetLastVersionId() == newLastVersionId
    {
      lastVersionId := newLastVersionId;
    }

    function GetGameDir(): (r: Option<string>)
      reads this
      ensures r == Fields().gameDir
    {
      gameDir
    }

    method SetGameDir(newGameDir: Option<string>)
      modifies this
      ensures Fields() == ApplyProfileCall(old(Fields()), SetGameDirCall(newGameDir))
      ensures GetGameDir() == newGameDir
    {
      gameDir := newGameDir;
    }

    function GetJavaDir(): (r: Option<string>)
      reads this
      ensures r == Fields().javaDir
    {
      javaDir
    }

    method SetJavaDir(newJavaDir: Option<string>)
      modifies this
      ensures Fields() == ApplyProfileCall(old(Fields()), SetJavaDirCall(newJavaDir))
      ensures GetJavaDir() == newJavaDir
    {
      javaDir := newJavaDir;
    }

    function GetJavaArgs(): (r: Option<string>)
      reads this
      ensures r == Fields().javaArgs
    {
      javaArgs
    }

    method SetJavaArgs(newJavaArgs: Option<string>)
      modifies this
      ensures Fields() == ApplyProfileCall(old(Fields()), SetJavaArgsCall(newJavaArgs))
      ensures GetJavaArgs() == newJavaArgs
    {
      javaArgs := newJavaArgs;
    }

    /** The allowed release types, `{RELEASE}` when none are stored. Being a
        function, it cannot store the default. The result is empty only when
        an empty set was stored. */
    function GetAllowedReleaseTypes(): (r: set<VersionType>)
      reads this
      ensures allowedReleaseTypes.Some? ==> r == allowedReleaseTypes.value
      ensures allowedReleaseTypes.None? ==> r == {Release}
      ensures r == {} <==> allowedReleaseTypes == Some({})
      ensures Release in r <==> (allowedReleaseTypes.None? || Release in allowedReleaseTypes.value)
    {
      if allowedReleaseTypes.Some? then allowedReleaseTypes.value else {Release}
    }

    /** The visibility, `CloseOnGameStart` when none is stored. Being a
        function, it cannot store the default; an absent field and a stored
        `CloseOnGameStart` read the same. */
    function GetLauncherVisibilityOnGameClose(): (r: LauncherVisibility)
      reads this
      ensures launcherVisibilityOnGameClose.Some? ==> r == launcherVisibilityOnGameClose.value
      ensures launcherVisibilityOnGameClose.None? ==> r == CloseOnGameStart
      ensures r != CloseOnGameStart ==> launcherVisibilityOnGameClose == Some(r)
    {
      if launcherVisibilityOnGameClose.Some? then launcherVisibilityOnGameClose.value
      else CloseOnGameStart
    }

    method SetLauncherVisibilityOnGameClose(newVisibility: Option<LauncherVisibility>)
      modifies this
      ensures Fields() == ApplyProfileCall(old(Fields()), SetVisibilityCall(newVisibility))
      ensures launcherVisibilityOnGameClose == newVisibility
      ensures GetLauncherVisibilityOnGameClose() ==
                (if newVisibility.Some? then newVisibility.value else CloseOnGameStart)
    {
      launcherVisibilityOnGameClose := newVisibility;
    }
  }

  // ---------------------------------------------------------------------------
  // AuthenticationDatabaseEntry: stored state and its setter calls, as values
  // ---------------------------------------------------------------------------

  /** The stored fields of a saved account; `None` is a null field. */
  datatype AuthEntryFields = AuthEntryFields(
    displayName: Option<string>,
    accessToken: Option<string>,
    userid: Option<string>,
    uuid: Option<Uuid>,
    username: Option<string>)

  /** The fields of a saved account, by name. */
  datatype AuthField = DisplayNameField | AccessTokenField | UseridField | UuidField | UsernameField

  /** Whether two entries hold the same value in field `f`. */
  predicate EntriesAgreeOn(e: AuthEntryFields, d: AuthEntryFields, f: AuthField)
  {
    match f
    case DisplayNameField => e.displayName == d.displayName
    case AccessTokenField => e.accessToken == d.accessToken
    case UseridField => e.userid == d.userid
    case UuidField => e.uuid == d.uuid
    case UsernameField => e.username == d.username
  }

  /** A call of one of the five setters of a saved account. Only
      `setAccessToken` takes a nullable argument. */
  datatype AuthCall =
    | SetDisplayNameCall(newDisplayName: string)
    | SetAccessTokenCall(newAccessToken: Option<string>)
    | SetUseridCall(newUserid: string)
    | SetUuidCall(newUuid: Uuid)
    | SetUsernameCall(newUsername: string)

  /** The field a setter call writes. */
  function AuthCallTarget(c: AuthCall): AuthField
  {
    match c
    case SetDisplayNameCall(_) => DisplayNameField
    case SetAccessTokenCall(_) => AccessTokenField
    case SetUseridCall(_) => UseridField
    case SetUuidCall(_) => UuidField
    case SetUsernameCall(_) => UsernameField
  }

  /** Whether `e` holds the argument of `c` in the field `c` writes. */
  predicate HoldsAuthArgument(e: AuthEntryFields, c: AuthCall)
  {
    match c
    case SetDisplayNameCall(n) => e.displayName == Some(n)
    case SetAccessTokenCall(t) => e.accessToken == t
    case SetUseridCall(n) => e.userid == Some(n)
    case SetUuidCall(u) => e.uuid == Some(u)
    case SetUsernameCall(n) => e.username == Some(n)
  }

  /** The entry after one setter call: the argument is stored in the call's own
      field and every other field is left as it was. */
  function ApplyAuthCall(e: AuthEntryFields, c: AuthCall): (r: AuthEntryFields)
    ensures HoldsAuthArgument(r, c)
    ensures forall f :: f != AuthCallTarget(c) ==> EntriesAgreeOn(r, e, f)
  {
    match c
    case SetDisplayNameCall(n) => e.(displayName := Some(n))
    case SetAccessTokenCall(t) => e.(accessToken := t)
    case SetUseridCall(n) => e.(userid := Some(n))
    case SetUuidCall(u) => e.(uuid := Some(u))
    case SetUsernameCall(n) => e.(username := Some(n))
  }

  /** The entry after a sequence of setter calls, made in order. */
  function ApplyAuthCalls(e: AuthEntryFields, cs: seq<AuthCall>): AuthEntryFields
    decreases |cs|
  {
    if cs == [] then e else ApplyAuthCalls(ApplyAuthCall(e, cs[0]), cs[1..])
  }

  /** The four fields whose getters are declared non-null hold a value. */
  predicate RequiredPresent(e: AuthEntryFields)
  {
    e.displayName.Some? && e.userid.Some? && e.uuid.Some? && e.username.Some?
  }

  /** Setters of different fields do not interfere: their order does not matter. */
  lemma AuthSettersCommute(e: AuthEntryFields, a: AuthCall, b: AuthCall)
    requires AuthCallTarget(a) != AuthCallTarget(b)
    ensures ApplyAuthCall(ApplyAuthCall(e, a), b) == ApplyAuthCall(ApplyAuthCall(e, b), a)
  {
  }

  /** A later call of the same setter overwrites the earlier one completely. */
  lemma LaterAuthSetterWins(e: AuthEntryFields, a: AuthCall, b: AuthCall)
    requires AuthCallTarget(a) == AuthCallTarget(b)
    ensures ApplyAuthCall(ApplyAuthCall(e, a), b) == ApplyAuthCall(e, b)
  {
  }

  /** The non-null setters keep the non-null getters honest: once the four
      required fields hold values, no sequence of setter calls empties them. */
  lemma {:induction false} RequiredFieldsStayPresent(e: AuthEntryFields, cs: seq<AuthCall>)
    requires RequiredPresent(e)
    ensures RequiredPresent(ApplyAuthCalls(e, cs))
    decreases |cs|
  {
    if cs != [] {
      var d := ApplyAuthCall(e, cs[0]);
      assert EntriesAgreeOn(d, e, DisplayNameField) || cs[0].SetDisplayNameCall?;
      assert EntriesAgreeOn(d, e, UseridField) || cs[0].SetUseridCall?;
      assert EntriesAgreeOn(d, e, UuidField) || cs[0].SetUuidCall?;
      assert EntriesAgreeOn(d, e, UsernameField) || cs[0].SetUsernameCall?;
      RequiredFieldsStayPresent(d, cs[1..]);
    }
  }

  /** Whether field `f` of `e` holds a value. */
  predicate FieldPresent(e: AuthEntryFields, f: AuthField)
  {
    match f
    case DisplayNameField => e.displayName.Some?
    case AccessTokenField => e.accessToken.Some?
    case UseridField => e.userid.Some?
    case UuidField => e.uuid.Some?
    case UsernameField => e.username.Some?
  }

  /** A field other than the access token, once it holds a value, keeps one
      through any sequence of setter calls. */
  lemma {:induction false} PresentFieldStays(e: AuthEntryFields, cs: seq<AuthCall>, f: AuthField)
    requires f != AccessTokenField && FieldPresent(e, f)
    ensures FieldPresent(ApplyAuthCalls(e, cs), f)
    decreases |cs|
  {
    if cs != [] {
      var d := ApplyAuthCall(e, cs[0]);
      assert EntriesAgreeOn(d, e, f) || AuthCallTarget(cs[0]) == f;
      PresentFieldStays(d, cs[1..], f);
    }
  }

  /** A call anywhere in `cs` of one of the four non-null setters leaves its
      field holding a value at the end, whatever is called before or after. */
  lemma {:induction false} NonNullSetterEstablishesField(e: AuthEntryFields, cs: seq<AuthCall>, i: nat)
    requires i < |cs| && !cs[i].SetAccessTokenCall?
    ensures FieldPresent(ApplyAuthCalls(e, cs), AuthCallTarget(cs[i]))
    decreases |cs|
  {
    var d := ApplyAuthCall(e, cs[0]);
    if i == 0 {
      assert HoldsAuthArgument(d, cs[0]);
      PresentFieldStays(d, cs[1..], AuthCallTarget(cs[0]));
    } else {
      assert cs[1..][i - 1] == cs[i];
      NonNullSetterEstablishesField(d, cs[1..], i - 1);
    }
  }

  /** Calling each of the four non-null setters at least once makes the
      required fields present, whatever the entry held before, in whatever
      order the setters come and whatever else is called before, between or
      after them. */
  lemma RequiredSettersEstablishPresence(e: AuthEntryFields, cs: seq<AuthCall>)
    requires exists i :: 0 <= i < |cs| && cs[i].SetDisplayNameCall?
    requires exists i :: 0 <= i < |cs| && cs[i].SetUseridCall?
    requires exists i :: 0 <= i < |cs| && cs[i].SetUuidCall?
    requires exists i :: 0 <= i < |cs| && cs[i].SetUsernameCall?
    ensures RequiredPresent(ApplyAuthCalls(e, cs))
  {
    var i1 :| 0 <= i1 < |cs| && cs[i1].SetDisplayNameCall?;
    var i2 :| 0 <= i2 < |cs| && cs[i2].SetUseridCall?;
    var i3 :| 0 <= i3 < |cs| && cs[i3].SetUuidCall?;
    var i4 :| 0 <= i4 < |cs| && cs[i4].SetUsernameCall?;
    NonNullSetterEstablishesField(e, cs, i1);
    NonNullSetterEstablishesField(e, cs, i2);
    NonNullSetterEstablishesField(e, cs, i3);
    NonNullSetterEstablishesField(e, cs, i4);
  }

  // ---------------------------------------------------------------------------
  // AuthenticationDatabaseEntry: the mutable record
  // ---------------------------------------------------------------------------

  /** One saved account. */
  class AuthenticationDatabaseEntry {
    var displayName: Option<string>
    var accessToken: Option<string>
    var userid: Option<string>
    var uuid: Option<Uuid>
    var username: Option<string>

    /** The stored state, as a value. */
    function Fields(): AuthEntryFields
      reads this
    {
      AuthEntryFields(displayName, accessToken, userid, uuid, username)
    }

    /** An entry as the JSON library leaves it: any field may be null. */
    constructor (stored: AuthEntryFields)
      ensures Fields() == stored
    {
      displayName := stored.displayName;
      accessToken := stored.accessToken;
      userid := stored.userid;
      uuid := stored.uuid;
      username := stored.username;
    }

    function GetDisplayName(): (r: Option<string>)
      reads this
      ensures r == Fields().displayName
    {
      displayName
    }

    method SetDisplayName(newDisplayName: string)
      modifies this
      ensures Fields() == ApplyAuthCall(old(Fields()), SetDisplayNameCall(newDisplayName))
      ensures GetDisplayName() == Some(newDisplayName)
    {
      displayName := Some(newDisplayName);
    }

    function GetAccessToken(): (r: Option<string>)
      reads this
      ensures r == Fields().accessToken
    {
      accessToken
    }

    method SetAccessToken(newAccessToken: Option<string>)
      modifies this
      ensures Fields() == ApplyAuthCall(old(Fields()), SetAccessTokenCall(newAccessToken))
      ensures GetAccessToken() == newAccessToken
    {
      accessToken := newAccessToken;
    }

    function GetUserid(): (r: Option<string>)
      reads this
      ensures r == Fields().userid
    {
      userid
    }

    method SetUserid(newUserid: string)
      modifies this
      ensures Fields() == ApplyAuthCall(old(Fields()), SetUseridCall(newUserid))
      ensures GetUserid() == Some(newUserid)
    {
      userid := Some(newUserid);
    }

    function GetUuid(): (r: Option<Uuid>)
      reads this
      ensures r == Fields().uuid
    {
      uuid
    }

    method SetUuid(newUuid: Uuid)
      modifies this
      ensures Fields() == ApplyAuthCall(old(Fields()), SetUuidCall(newUuid))
      ensures GetUuid() == Some(newUuid)
    {
      uuid := Some(newUuid);
    }

    function GetUsername(): (r: Option<string>)
      reads this
      ensures r == Fields().username
    {
      username
    }

    method SetUsername(newUsername: string)
      modifies this
      ensures Fields() == ApplyAuthCall(old(Fields()), SetUsernameCall(newUsername))
      ensures GetUsername() == Some(newUsername)
    {
      username := Some(newUsername);
    }
  }

  // ---------------------------------------------------------------------------
  // Version and the root document: read-only records
  // ---------------------------------------------------------------------------

  /** The launcher version and schema versions a document was written with. */
  class Version {
    const name: Option<string>
    const format: Int32
    const profilesFormat: Int32

    /** A version marker as the JSON library builds it. */
    constructor (name: Option<string>, format: Int32, profilesFormat: Int32)
      ensures this.name == name && this.format == format && this.profilesFormat == profilesFormat
    {
      this.name := name;
      this.format := format;
      this.profilesFormat := profilesFormat;
    }

    function GetName(): (r: Option<string>)
      ensures r == name
    {
      name
    }

    function GetFormat(): (r: Int32)
      ensures r == format
    {
      format
    }

    function GetProfilesFormat(): (r: Int32)
      ensures r == profilesFormat
    {
      profilesFormat
    }
  }

  /** The root launcher-profile document. The values of `profiles` are root
      documents, not launch profiles, as the Java declaration types them. */
  class LauncherProfile {
    const clientToken: Option<Uuid>
    const selectedUser: Option<string>
    const selectedProfile: Option<string>
    const profiles: Option<map<string, LauncherProfile>>
    const authenticationDatabase: Option<map<string, AuthenticationDatabaseEntry>>
    const launcherVersion: Option<Version>

    /** A document as the JSON library builds it: any field may be null. */
    constructor (clientToken: Option<Uuid>, selectedUser: Option<string>,
                 selectedProfile: Option<string>,
                 profiles: Option<map<string, LauncherProfile>>,
                 authenticationDatabase: Option<map<string, AuthenticationDatabaseEntry>>,
                 launcherVersion: Option<Version>)
      ensures this.clientToken == clientToken && this.selectedUser == selectedUser
      ensures this.selectedProfile == selectedProfile && this.profiles == profiles
      ensures this.authenticationDatabase == authenticationDatabase
      ensures this.launcherVersion == launcherVersion
    {
      this.clientToken := clientToken;
      this.selectedUser := selectedUser;
      this.selectedProfile := selectedProfile;
      this.profiles := profiles;
      this.authenticationDatabase := authenticationDatabase;
      this.launcherVersion := launcherVersion;
    }

    function GetClientToken(): (r: Option<Uuid>)
      ensures r == clientToken
    {
      clientToken
    }

    function GetSelectedUser(): (r: Option<string>)
      ensures r == selectedUser
    {
      selectedUser
    }

    function GetSelectedProfile(): (r: Option<string>)
      ensures r == selectedProfile
    {
      selectedProfile
    }

    function GetProfiles(): (r: Option<map<string, LauncherProfile>>)
      ensures r == profiles
    {
      profiles
    }

    function GetAuthenticationDatabase(): (r: Option<map<string, AuthenticationDatabaseEntry>>)
      ensures r == authenticationDatabase
    {
      authenticationDatabase
    }

    function GetLauncherVersion(): (r: Option<Version>)
      ensures r == launcherVersion
    {
      launcherVersion
    }
  }
}
