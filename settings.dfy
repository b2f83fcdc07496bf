/**
 * The settings routes: get-or-create of a user's settings with their
 * defaults, the validated upsert, and the profile lookup. The settings table,
 * the user table and the cache are maps; a cache entry is never stale,
 * because every write drops it.
 */
module Settings {
  import opened Wrappers
  import opened Errors
  import opened Text
  import opened Validation

  const Themes: seq<string> := ["light", "dark"]
  const Languages: seq<string> := ["en", "es", "fr"]
  const Timezones: seq<string> := ["UTC", "PST", "EST"]
  const AiPersonalities: seq<string> := ["professional", "friendly", "casual"]

  const UserNotFound: string := "User not found"

  /** A row of the settings table. */
  datatype UserSettings = UserSettings(
    userId: string,
    theme: string,
    language: string,
    timezone: string,
    aiPersonality: string)

  function Defaults(userId: string): UserSettings
  {
    UserSettings(userId, Themes[0], Languages[0], Timezones[0], AiPersonalities[0])
  }

  /** A placeholder for the database client's message when a field of the
      upsert is not text. */
  const NonTextValue: string := "Settings field is not a string"

  /** The fields of a PUT body, as the JSON parser gives them: any value,
      and `Undefined` for an absent field. */
  datatype SettingsUpdate = SettingsUpdate(
    theme: JsValue,
    language: JsValue,
    timezone: JsValue,
    aiPersonality: JsValue)

  /** The message of a failed list check. */
  function EnumMessage(fieldName: string, values: seq<string>): string
  {
    fieldName + " must be one of: " + Join(values, ", ")
  }

  /** `values.includes(v)`, a strict comparison: only a string can be in the
      list. */
  predicate InList(v: JsValue, values: seq<string>)
  {
    v.Str? && v.s in values
  }

  /** One field's check: a truthy value must be in its list. */
  function CheckField(v: JsValue, fieldName: string, values: seq<string>): (r: Result<()>)
    ensures r.Ok? <==> !Truthy(v) || InList(v, values)
    ensures r.Err? ==> r.error == FieldError(EnumMessage(fieldName, values))
  {
    if !Truthy(v) then Ok(())
    else if v.Str? then ValidateEnum(v.s, fieldName, values)
    else Err(FieldError(EnumMessage(fieldName, values)))
  }

  /** The fields PUT checks, in the order it checks them. */
  datatype Field = Theme | Language | Timezone | AiPersonality

  /** A field's place in the check order. */
  function Rank(f: Field): nat
  {
    match f
    case Theme => 0
    case Language => 1
    case Timezone => 2
    case AiPersonality => 3
  }

  /** The name a field's error message uses. */
  function FieldName(f: Field): string
  {
    match f
    case Theme => "theme"
    case Language => "language"
    case Timezone => "timezone"
    case AiPersonality => "AI personality"
  }

  /** The values a field may take. */
  function Allowed(f: Field): seq<string>
  {
    match f
    case Theme => Themes
    case Language => Languages
    case Timezone => Timezones
    case AiPersonality => AiPersonalities
  }

  function Value(u: SettingsUpdate, f: Field): JsValue
  {
    match f
    case Theme => u.theme
    case Language => u.language
    case Timezone => u.timezone
    case AiPersonality => u.aiPersonality
  }

  /** A field fails when it is truthy and not in its list. */
  predicate Fails(u: SettingsUpdate, f: Field)
  {
    Truthy(Value(u, f)) && !InList(Value(u, f), Allowed(f))
  }

  /** The first failing field in check order, if any. */
  function FirstFailing(u: SettingsUpdate): (r: Option<Field>)
    ensures r.None? <==> forall f :: !Fails(u, f)
    ensures r.Some? ==> Fails(u, r.value)
    ensures r.Some? ==> forall g :: Rank(g) < Rank(r.value) ==> !Fails(u, g)
  {
    if Fails(u, Theme) then Some(Theme)
    else if Fails(u, Language) then Some(Language)
    else if Fails(u, Timezone) then Some(Timezone)
    else if Fails(u, AiPersonality) then Some(AiPersonality)
    else
      NoneFails(u);
      None
  }

  /** A field is one of the four checked ones, so an update where none of
      the four fails has no failing field. */
  lemma NoneFails(u: SettingsUpdate)
    requires !Fails(u, Theme) && !Fails(u, Language) && !Fails(u, Timezone) && !Fails(u, AiPersonality)
    ensures forall f :: !Fails(u, f)
  {
    forall f ensures !Fails(u, f) {
      match f
      case Theme =>
      case Language =>
      case Timezone =>
      case AiPersonality =>
    }
  }

  function CheckOne(u: SettingsUpdate, f: Field): (r: Result<()>)
    ensures r.Ok? <==> !Fails(u, f)
    ensures r.Err? ==> r.error == FieldError(EnumMessage(FieldName(f), Allowed(f)))
  {
    CheckField(Value(u, f), FieldName(f), Allowed(f))
  }

  /** The checks of PUT, in order: the update passes when no field fails,
      and otherwise fails with the error of the first failing field. */
  function CheckUpdate(u: SettingsUpdate): (r: Result<()>)
    ensures r.Ok? <==> FirstFailing(u).None?
    ensures r.Err? ==> r.error == FieldError(EnumMessage(FieldName(FirstFailing(u).value), Allowed(FirstFailing(u).value)))
  {
    var t := CheckOne(u, Theme);
    if t.Err? then t
    else
      var l := CheckOne(u, Language);
      if l.Err? then l
      else
        var z := CheckOne(u, Timezone);
        if z.Err? then z
        else CheckOne(u, AiPersonality)
  }

  /** An update with no truthy field always passes the checks. */
  lemma UnsuppliedPasses(u: SettingsUpdate)
    requires !Truthy(u.theme) && !Truthy(u.language) && !Truthy(u.timezone) && !Truthy(u.aiPersonality)
    ensures CheckUpdate(u).Ok?
  {
    assert forall f :: !Truthy(Value(u, f));
  }

  /** A value the upsert can hand to a text column: a string, or absent. */
  predicate Textual(v: JsValue)
  {
    v.Undefined? || v.Str?
  }

  /** Every field of the body is textual. */
  predicate TextOnly(u: SettingsUpdate)
  {
    Textual(u.theme) && Textual(u.language) && Textual(u.timezone) && Textual(u.aiPersonality)
  }

  /** `value || fallback`, for a value that is a string whenever it is
      truthy. */
  function OrDefault(v: JsValue, fallback: string): string
    requires Truthy(v) ==> v.Str?
  {
    if Truthy(v) then v.s else fallback
  }

  /** The upsert's `update` branch: an absent field keeps its value, a
      present string (even empty) is written. */
  function Merge(current: string, v: JsValue): string
    requires Textual(v)
  {
    if v.Str? then v.s else current
  }

  /** After the checks pass, a truthy field is a string of its list. */
  lemma PassedFields(u: SettingsUpdate)
    requires CheckUpdate(u).Ok?
    ensures Truthy(u.theme) ==> InList(u.theme, Themes)
    ensures Truthy(u.language) ==> InList(u.language, Languages)
    ensures Truthy(u.timezone) ==> InList(u.timezone, Timezones)
    ensures Truthy(u.aiPersonality) ==> InList(u.aiPersonality, AiPersonalities)
  {
    assert !Fails(u, Theme) && !Fails(u, Language) && !Fails(u, Timezone) && !Fails(u, AiPersonality);
  }

  /** The row the upsert creates after the checks passed: a truthy field is
      written, and every other field takes the same default as
      get-or-create; so every field lies in its list. */
  function Created(userId: string, u: SettingsUpdate): (s: UserSettings)
    requires CheckUpdate(u).Ok?
    ensures s.userId == userId
    ensures s.theme == (if Truthy(u.theme) then u.theme.s else Defaults(userId).theme)
    ensures s.language == (if Truthy(u.language) then u.language.s else Defaults(userId).language)
    ensures s.timezone == (if Truthy(u.timezone) then u.timezone.s else Defaults(userId).timezone)
    ensures s.aiPersonality == (if Truthy(u.aiPersonality) then u.aiPersonality.s else Defaults(userId).aiPersonality)
    ensures s.theme in Themes && s.language in Languages && s.timezone in Timezones && s.aiPersonality in AiPersonalities
  {
    PassedFields(u);
    UserSettings(userId, OrDefault(u.theme, Themes[0]), OrDefault(u.language, Languages[0]),
      OrDefault(u.timezone, Timezones[0]), OrDefault(u.aiPersonality, AiPersonalities[0]))
  }

  /** The row after the upsert's `update` branch. */
  function Updated(s: UserSettings, u: SettingsUpdate): (r: UserSettings)
    requires TextOnly(u)
    ensures r.userId == s.userId
    ensures r.theme == (if u.theme.Str? then u.theme.s else s.theme)
    ensures r.language == (if u.language.Str? then u.language.s else s.language)
    ensures r.timezone == (if u.timezone.Str? then u.timezone.s else s.timezone)
    ensures r.aiPersonality == (if u.aiPersonality.Str? then u.aiPersonality.s else s.aiPersonality)
  {
    s.(theme := Merge(s.theme, u.theme), language := Merge(s.language, u.language),
       timezone := Merge(s.timezone, u.timezone), aiPersonality := Merge(s.aiPersonality, u.aiPersonality))
  }

  /** An update whose fields are all absent writes nothing. */
  lemma EmptyUpdateKeeps(s: UserSettings)
    ensures Updated(s, SettingsUpdate(Undefined, Undefined, Undefined, Undefined)) == s
  {
  }

  /** The PUT outcome for a user's current row (if any): the first failing
      check's error; else the client's refusal of a falsy non-string field
      (`null`, `false`, `0`), which skipped its check; else the updated or
      created row. */
  function Upsert(current: Option<UserSettings>, userId: string, u: SettingsUpdate): (r: Result<UserSettings>)
    requires current.Some? ==> current.value.userId == userId
    ensures r.Err? <==> CheckUpdate(u).Err? || !TextOnly(u)
    ensures CheckUpdate(u).Err? ==> r == Err(CheckUpdate(u).error)
    ensures CheckUpdate(u).Ok? && !TextOnly(u) ==> r == Err(Other(NonTextValue))
    ensures r.Ok? ==> r.value.userId == userId
    ensures r.Ok? && current.None? ==> r.value == Created(userId, u)
    ensures r.Ok? && current.Some? ==> r.value == Updated(current.value, u)
  {
    var check := CheckUpdate(u);
    if check.Err? then Err(check.error)
    else if !TextOnly(u) then Err(Other(NonTextValue))
    else if current.Some? then Ok(Updated(current.value, u))
    else Ok(Created(userId, u))
  }

  /** An empty theme is falsy, so it skips the list check, but the `update`
      branch writes every present string: the stored theme becomes the empty
      string, which is not one of the themes. */
  lemma EmptyThemeWritten(s: UserSettings)
    ensures "" !in Themes
    ensures Upsert(Some(s), s.userId, SettingsUpdate(Str(""), Undefined, Undefined, Undefined)) == Ok(s.(theme := ""))
  {
    UnsuppliedPasses(SettingsUpdate(Str(""), Undefined, Undefined, Undefined));
  }

  /** Bodies that are not strings: a truthy one (`true`, `["dark"]`) fails
      the strict list check even when it prints as a member, and a falsy one
      (`null`) skips the check and reaches the client, which refuses it. */
  lemma NonStringBodies(s: Option<UserSettings>, userId: string)
    requires s.Some? ==> s.value.userId == userId
    ensures Upsert(s, userId, SettingsUpdate(Bool(true), Undefined, Undefined, Undefined))
      == Err(FieldError(EnumMessage("theme", Themes)))
    ensures Upsert(s, userId, SettingsUpdate(Arr([Str("dark")]), Undefined, Undefined, Undefined))
      == Err(FieldError(EnumMessage("theme", Themes)))
    ensures Upsert(s, userId, SettingsUpdate(Null, Undefined, Undefined, Undefined)) == Err(Other(NonTextValue))
    ensures Upsert(s, userId, SettingsUpdate(Undefined, Undefined, Num(0), Undefined)) == Err(Other(NonTextValue))
  {
    UnsuppliedPasses(SettingsUpdate(Null, Undefined, Undefined, Undefined));
    UnsuppliedPasses(SettingsUpdate(Undefined, Undefined, Num(0), Undefined));
  }

  /** The cache key of a user's settings. */
  function SettingsKey(userId: string): string
  {
    "settings:" + userId
  }

  /** The cache key of a user's profile. */
  function ProfileKey(userId: string): string
  {
    "profile:" + userId
  }

  /** Distinct users have distinct settings keys and distinct profile keys,
      and no settings key is a profile key; so a cache keyed by user id
      within each kind stands for the one shared key space. */
  lemma {:induction false} KeysDistinct(u: string, v: string)
    ensures SettingsKey(u) == SettingsKey(v) ==> u == v
    ensures ProfileKey(u) == ProfileKey(v) ==> u == v
    ensures SettingsKey(u) != ProfileKey(v)
  {
    if SettingsKey(u) == SettingsKey(v) {
      assert u == SettingsKey(u)[9..];
      assert v == SettingsKey(v)[9..];
    }
    if ProfileKey(u) == ProfileKey(v) {
      assert u == ProfileKey(u)[8..];
      assert v == ProfileKey(v)[8..];
    }
    assert SettingsKey(u)[0] == 's' && ProfileKey(v)[0] == 'p';
  }

  /** The public fields of a user. */
  datatype Profile = Profile(id: string, email: string, name: Option<string>, phoneNumber: Option<string>)

  /** Every row is filed under its own user. */
  predicate Filed(settings: map<string, UserSettings>)
  {
    forall u :: u in settings ==> settings[u].userId == u
  }

  class SettingsRoutes {
    var settings: map<string, UserSettings>
    /** The cached settings: entry u is the one stored under SettingsKey(u). */
    var cache: map<string, UserSettings>
    /** The user table, read only here. */
    var users: map<string, Profile>
    /** The cached profiles: entry u is the one stored under ProfileKey(u). */
    var profileCache: map<string, Profile>

    /** Every row is filed under its user, and every cached entry is that
        user's current row or profile. */
    ghost predicate Valid()
      reads this
    {
      && Filed(settings)
      && (forall u :: u in cache ==> u in settings && cache[u] == settings[u])
      && (forall u :: u in profileCache ==> u in users && profileCache[u] == users[u])
    }

    constructor(users: map<string, Profile>)
      ensures Valid() && settings == map[] && cache == map[] && this.users == users && profileCache == map[]
    {
      settings := map[];
      cache := map[];
      this.users := users;
      profileCache := map[];
    }

    /** GET: the cached or stored settings, or a newly created row of
        defaults when the user has none; the result is cached. */
    method GetSettings(userId: string) returns (s: UserSettings)
      requires Valid()
      modifies this
      ensures Valid()
      ensures s == if userId in old(settings) then old(settings)[userId] else Defaults(userId)
      ensures settings == old(settings)[userId := s]
      ensures userId in old(settings) ==> settings == old(settings)
      ensures cache == old(cache)[userId := s]
      ensures users == old(users) && profileCache == old(profileCache)
    {
      if userId in cache {
        s := cache[userId];
        return;
      }
      s := if userId in settings then settings[userId] else Defaults(userId);
      settings := settings[userId := s];
      cache := cache[userId := s];
    }

    /** PUT: the supplied fields are checked first, and a failure changes
        nothing; otherwise the row is updated or created, and its cache entry
        dropped. */
    method UpdateSettings(userId: string, u: SettingsUpdate) returns (r: Result<UserSettings>)
      requires Valid()
      modifies this
      ensures Valid()
      ensures users == old(users) && profileCache == old(profileCache)
      ensures r == Upsert(if userId in old(settings) then Some(old(settings)[userId]) else None, userId, u)
      ensures r.Err? ==> settings == old(settings) && cache == old(cache)
      ensures r.Ok? ==> settings == old(settings)[userId := r.value] && cache == old(cache) - {userId}
    {
      var current := if userId in settings then Some(settings[userId]) else None;
      r := Upsert(current, userId, u);
      if r.Err? {
        return;
      }
      settings := settings[userId := r.value];
      cache := cache - {userId};
    }

    /** GET /profile: the cached or stored profile, or NotFound for an
        unknown user. */
    method GetProfile(userId: string) returns (r: Result<Profile>)
      requires Valid()
      modifies this
      ensures Valid()
      ensures settings == old(settings) && cache == old(cache) && users == old(users)
      ensures userId !in users ==> r == Err(App(NotFoundError(Some(UserNotFound)))) && profileCache == old(profileCache)
      ensures userId in users ==> r == Ok(users[userId]) && profileCache == old(profileCache)[userId := users[userId]]
    {
      if userId in profileCache {
        return Ok(profileCache[userId]);
      }
      if userId !in users {
        return Err(App(NotFoundError(Some(UserNotFound))));
      }
      profileCache := profileCache[userId := users[userId]];
      r := Ok(users[userId]);
    }
  }
}
