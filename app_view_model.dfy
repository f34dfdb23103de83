/** ViewModels/AppViewModel.swift: the signed-in user and the interface language,
    both persisted in `UserDefaults`, and sign-in, sign-up and sign-out. */
module App {
  import opened Basics
  import opened Models
  import opened Storage
  import Identity
  import Back4App

  const UserKey := "tg_current_user_v1"
  const LanguageKey := "tg_app_language_v1"
  const LoginFieldsMissing := "Email and password are required."
  const RegisterFieldsMissing := "Name, email and password are required."

  // ---------------------------------------------------------------------------
  // Persistence

  /** The language restored by `init`: the stored raw value if it names a
      language, else English. */
  function LoadedLanguage(entries: map<string, Stored>): (r: AppLanguage)
    ensures LanguageKey !in entries ==> r == English
    ensures LanguageKey in entries && entries[LanguageKey].Text? && AppLanguageFromRaw(entries[LanguageKey].text).Some?
            ==> r == AppLanguageFromRaw(entries[LanguageKey].text).value
    ensures LanguageKey in entries && !(entries[LanguageKey].Text? && AppLanguageFromRaw(entries[LanguageKey].text).Some?)
            ==> r == English
  {
    if LanguageKey in entries && entries[LanguageKey].Text? && AppLanguageFromRaw(entries[LanguageKey].text).Some?
    then AppLanguageFromRaw(entries[LanguageKey].text).value
    else English
  }

  /** The user restored by `init`, if the stored data decodes as a profile. */
  function LoadedUser(entries: map<string, Stored>): (r: Option<UserProfile>)
    ensures r.Some? <==> UserKey in entries && entries[UserKey].UserData?
  {
    if UserKey in entries && entries[UserKey].UserData? then Some(entries[UserKey].user) else None
  }

  /** `setLanguage` stores the raw value. */
  function SavedLanguage(entries: map<string, Stored>, lang: AppLanguage): map<string, Stored> {
    entries[LanguageKey := Text(lang.RawValue())]
  }

  /** `persistUser`: the encoded profile, or the key removed. */
  function SavedUser(entries: map<string, Stored>, user: Option<UserProfile>): map<string, Stored> {
    match user
    case Some(u) => entries[UserKey := UserData(u)]
    case None => entries - {UserKey}
  }

  /** What is saved is restored on the next launch, and the two keys are
      independent. */
  lemma SessionRoundTrip(entries: map<string, Stored>, lang: AppLanguage, user: Option<UserProfile>)
    ensures LoadedLanguage(SavedLanguage(entries, lang)) == lang
    ensures LoadedUser(SavedUser(entries, user)) == user
    ensures LoadedUser(SavedLanguage(entries, lang)) == LoadedUser(entries)
    ensures LoadedLanguage(SavedUser(entries, user)) == LoadedLanguage(entries)
  {
    RawValuesRoundTrip(PreTrip, Checklist, lang);
  }

  // ---------------------------------------------------------------------------
  // Profiles built from Parse users

  /** The profile a successful login creates: the server's name, else its
      username, else the typed email; the server's email, else the typed one. */
  function LoginProfile(userId: Uuid, pu: Back4App.ParseUser, cleanEmail: string): (p: UserProfile)
    ensures p.userId == userId && p.parseObjectId == Some(pu.objectId) && p.sessionToken == pu.sessionToken
    ensures p.avatarImageDataBase64.None?
    ensures pu.name.Some? ==> p.name == pu.name.value
    ensures pu.name.None? && pu.username.Some? ==> p.name == pu.username.value
    ensures pu.name.None? && pu.username.None? ==> p.name == cleanEmail
    ensures p.email == (if pu.email.Some? then pu.email.value else cleanEmail)
  {
    UserProfile(
      userId,
      Some(pu.objectId),
      pu.sessionToken,
      if pu.name.Some? then pu.name.value else if pu.username.Some? then pu.username.value else cleanEmail,
      if pu.email.Some? then pu.email.value else cleanEmail,
      None)
  }

  /** The profile a successful sign-up creates: the typed name and email,
      whatever the server echoes. */
  function RegisterProfile(userId: Uuid, pu: Back4App.ParseUser, cleanName: string, cleanEmail: string): (p: UserProfile)
    ensures p.userId == userId && p.parseObjectId == Some(pu.objectId) && p.sessionToken == pu.sessionToken
    ensures p.name == cleanName && p.email == cleanEmail && p.avatarImageDataBase64.None?
  {
    UserProfile(userId, Some(pu.objectId), pu.sessionToken, cleanName, cleanEmail, None)
  }

  // ---------------------------------------------------------------------------
  // The view model

  class AppViewModel {
    var currentUser: Option<UserProfile>
    var appLanguage: AppLanguage
    const defaults: Defaults
    const ids: Identity.UuidSource

    ghost predicate Valid()
      reads this, ids
    {
      ids.Valid()
    }

    /** `init`: restores the language and the user. */
    constructor (defaults: Defaults, ids: Identity.UuidSource)
      requires ids.Valid()
      ensures Valid()
      ensures this.defaults == defaults && this.ids == ids
      ensures appLanguage == LoadedLanguage(defaults.entries)
      ensures currentUser == LoadedUser(defaults.entries)
    {
      this.defaults := defaults;
      this.ids := ids;
      appLanguage := LoadedLanguage(defaults.entries);
      currentUser := LoadedUser(defaults.entries);
    }

    /** `strings`: the table of the current language. */
    function Strings(): (r: LocalizedStrings)
      reads this
      ensures r == EnglishStrings <==> appLanguage == English
      ensures r == RussianStrings <==> appLanguage == Russian
    {
      StringsFor(appLanguage)
    }

    method SetLanguage(lang: AppLanguage)
      modifies this, defaults
      ensures appLanguage == lang && currentUser == old(currentUser)
      ensures defaults.entries == SavedLanguage(old(defaults.entries), lang)
    {
      appLanguage := lang;
      defaults.entries := SavedLanguage(defaults.entries, lang);
    }

    /** `login`: blank credentials are refused before any request; otherwise the
        trimmed credentials are sent, and on success a profile with a fresh id
        becomes the current user and is saved. The result is the error shown,
        none on success. */
    method Login(email: string, password: string, response: Back4App.Response)
      returns (request: Option<Back4App.Request>, error: Option<string>)
      requires Valid()
      modifies this, defaults, ids
      ensures Valid()
      ensures appLanguage == old(appLanguage)
      ensures request.None? <==> AllWhitespace(email) || AllWhitespace(password)
      ensures request.None? ==>
        && error == Some(LoginFieldsMissing) && currentUser == old(currentUser)
        && defaults.entries == old(defaults.entries) && ids.issued == old(ids.issued)
      ensures request.Some? ==>
        && request.value == Back4App.LoginRequest(Trim(email), Trim(password))
        && (Back4App.Exchange(response).Err? ==>
              && error == Some(Back4App.Description(Back4App.Exchange(response).error))
              && currentUser == old(currentUser) && defaults.entries == old(defaults.entries)
              && ids.issued == old(ids.issued))
        && (Back4App.Exchange(response).Ok? ==>
              && error.None? && currentUser.Some?
              && currentUser.value == LoginProfile(currentUser.value.userId, Back4App.Exchange(response).value, Trim(email))
              && currentUser.value.userId !in old(ids.issued)
              && ids.issued == old(ids.issued) + {currentUser.value.userId}
              && defaults.entries == SavedUser(old(defaults.entries), currentUser))
    {
      var cleanEmail := Trim(email);
      var cleanPass := Trim(password);
      TrimEmptyIff(email);
      TrimEmptyIff(password);
      if cleanEmail == "" || cleanPass == "" {
        return None, Some(LoginFieldsMissing);
      }
      request := Some(Back4App.LoginRequest(cleanEmail, cleanPass));
      match Back4App.Exchange(response)
      case Err(e) =>
        error := Some(Back4App.Description(e));
      case Ok(pu) =>
        var id := ids.Fresh();
        var profile := LoginProfile(id, pu, cleanEmail);
        assert profile.userId == id;
        currentUser := Some(profile);
        defaults.entries := SavedUser(defaults.entries, currentUser);
        error := None;
    }

    /** `register`: like `login`, with all three fields required and the
        profile taking the typed name and email. */
    method Register(name: string, email: string, password: string, response: Back4App.Response)
      returns (request: Option<Back4App.Request>, error: Option<string>)
      requires Valid()
      modifies this, defaults, ids
      ensures Valid()
      ensures appLanguage == old(appLanguage)
      ensures request.None? <==> AllWhitespace(name) || AllWhitespace(email) || AllWhitespace(password)
      ensures request.None? ==>
        && error == Some(RegisterFieldsMissing) && currentUser == old(currentUser)
        && defaults.entries == old(defaults.entries) && ids.issued == old(ids.issued)
      ensures request.Some? ==>
        && request.value == Back4App.RegisterRequest(Trim(name), Trim(email), Trim(password))
        && (Back4App.Exchange(response).Err? ==>
              && error == Some(Back4App.Description(Back4App.Exchange(response).error))
              && currentUser == old(currentUser) && defaults.entries == old(defaults.entries)
              && ids.issued == old(ids.issued))
        && (Back4App.Exchange(response).Ok? ==>
              && error.None? && currentUser.Some?
              && currentUser.value == RegisterProfile(currentUser.value.userId, Back4App.Exchange(response).value, Trim(name), Trim(email))
              && currentUser.value.userId !in old(ids.issued)
              && ids.issued == old(ids.issued) + {currentUser.value.userId}
              && defaults.entries == SavedUser(old(defaults.entries), currentUser))
    {
      var cleanName := Trim(name);
      var cleanEmail := Trim(email);
      var cleanPass := Trim(password);
      TrimEmptyIff(name);
      TrimEmptyIff(email);
      TrimEmptyIff(password);
      if cleanName == "" || cleanEmail == "" || cleanPass == "" {
        return None, Some(RegisterFieldsMissing);
      }
      request := Some(Back4App.RegisterRequest(cleanName, cleanEmail, cleanPass));
      match Back4App.Exchange(response)
      case Err(e) =>
        error := Some(Back4App.Description(e));
      case Ok(pu) =>
        var id := ids.Fresh();
        var profile := RegisterProfile(id, pu, cleanName, cleanEmail);
        assert profile.userId == id;
        currentUser := Some(profile);
        defaults.entries := SavedUser(defaults.entries, currentUser);
        error := None;
    }

    /** `logout`: no current user, and none restored on the next launch. */
    method Logout()
      modifies this, defaults
      ensures currentUser.None? && appLanguage == old(appLanguage)
      ensures defaults.entries == SavedUser(old(defaults.entries), None)
    {
      currentUser := None;
      defaults.entries := SavedUser(defaults.entries, None);
    }
  }
}
