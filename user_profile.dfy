/** The domain types of Models/UserProfile.swift: the signed-in user, a trip with
    its suggestions, lists and itinerary, the enums with their raw values, and the
    English/Russian string tables. */
module Models {
  import opened Basics

  datatype UserProfile = UserProfile(
    userId: Uuid,
    parseObjectId: Option<string>,
    sessionToken: Option<string>,
    name: string,
    email: string,
    avatarImageDataBase64: Option<string>)
  {
    /** `Identifiable` conformance: a profile is identified by its user id. */
    function Id(): Uuid { userId }
  }

  datatype BookingSuggestion = BookingSuggestion(id: Uuid, title: string, priceEstimate: string, url: string)

  datatype ChecklistItemType = PreTrip | InTrip
  {
    function RawValue(): string {
      match this
      case PreTrip => "preTrip"
      case InTrip => "inTrip"
    }
  }

  /** `ChecklistItemType(rawValue:)`. */
  function ChecklistItemTypeFromRaw(raw: string): (r: Option<ChecklistItemType>)
    ensures r.Some? <==> raw == "preTrip" || raw == "inTrip"
    ensures r.Some? ==> r.value.RawValue() == raw
  {
    if raw == "preTrip" then Some(PreTrip)
    else if raw == "inTrip" then Some(InTrip)
    else None
  }

  /** An entry of a trip's pre-trip checklist or must-see list. Every field but
      `id` is `var` in the source; updates are written `item.(isDone := ...)`. */
  datatype ChecklistItem = ChecklistItem(
    id: Uuid,
    title: string,
    notes: Option<string>,
    link: Option<string>,
    isDone: bool,
    itemType: ChecklistItemType)

  datatype DayPlan = DayPlan(id: Uuid, dateLabel: string, morning: string, afternoon: string, evening: string)

  datatype Trip = Trip(
    id: Uuid,
    destination: string,
    startDate: Date,
    endDate: Date,
    flightInfo: Option<BookingSuggestion>,
    hotelInfo: Option<BookingSuggestion>,
    checklist: seq<ChecklistItem>,
    mustSeeList: seq<ChecklistItem>,
    dayByDayPlan: seq<DayPlan>,
    remoteObjectId: Option<string>)

  /** Which of a trip's two lists an edit addresses. */
  datatype ListTarget = Checklist | MustSee
  {
    function RawValue(): string {
      match this
      case Checklist => "checklist"
      case MustSee => "mustSee"
    }

    /** The type tag an item created for this list receives. */
    function ItemType(): (t: ChecklistItemType)
      ensures t == PreTrip <==> this == Checklist
      ensures t == InTrip <==> this == MustSee
    {
      match this
      case Checklist => PreTrip
      case MustSee => InTrip
    }
  }

  /** `ListTarget(rawValue:)`. */
  function ListTargetFromRaw(raw: string): (r: Option<ListTarget>)
    ensures r.Some? <==> raw == "checklist" || raw == "mustSee"
    ensures r.Some? ==> r.value.RawValue() == raw
  {
    if raw == "checklist" then Some(Checklist)
    else if raw == "mustSee" then Some(MustSee)
    else None
  }

  datatype AppLanguage = English | Russian
  {
    function RawValue(): string {
      match this
      case English => "en"
      case Russian => "ru"
    }
  }

  /** `AppLanguage(rawValue:)`: defined on exactly "en" and "ru", inverse to `RawValue`. */
  function AppLanguageFromRaw(raw: string): (r: Option<AppLanguage>)
    ensures r.Some? <==> raw == "en" || raw == "ru"
    ensures r.Some? ==> r.value.RawValue() == raw
  {
    if raw == "en" then Some(English)
    else if raw == "ru" then Some(Russian)
    else None
  }

  /** The raw values of the three enums are distinct per case, so each
      `init(rawValue:)` inverts `rawValue` on every case. */
  lemma RawValuesRoundTrip(t: ChecklistItemType, target: ListTarget, lang: AppLanguage)
    ensures ChecklistItemTypeFromRaw(t.RawValue()) == Some(t)
    ensures ListTargetFromRaw(target.RawValue()) == Some(target)
    ensures AppLanguageFromRaw(lang.RawValue()) == Some(lang)
  {
  }

  datatype LocalizedStrings = LocalizedStrings(
    tabPlan: string,
    tabMyTrip: string,
    tabChat: string,
    tabProfile: string,
    screenPlanTitle: string,
    screenPlanSubtitle: string,
    fieldFrom: string,
    fieldTo: string,
    fieldDates: string,
    fieldStart: string,
    fieldEnd: string,
    buttonGenerateTrip: string,
    generatingTrip: string,
    generatingOverlayText: string,
    previewTitle: string,
    noTripYet: string,
    noTripsYet: string,
    yourTripsTitle: string,
    preTripChecklist: string,
    mustSeeTitle: string,
    selectTripPrompt: string,
    addNewItemTitle: string,
    addNewItemPlaceholder: string,
    addNewNotesPlaceholder: string,
    addItemTitle: string,
    fieldTitle: string,
    fieldNotesOptional: string,
    cancel: string,
    add: string,
    deleteConfirm: string,
    delete: string,
    chatPlaceholder: string,
    chatHello: string,
    languageTitle: string,
    languagePickerLabel: string,
    logoutButton: string)
  {
    /** The alias ProfileView reads for the picker label. */
    function LanguageLabel(): string { languagePickerLabel }

    /** The alias ProfileView reads for the logout button. */
    function Logout(): string { logoutButton }
  }

  const EnglishStrings := LocalizedStrings(
    "Plan",
    "My Trips",
    "Chat",
    "Profile",
    "Plan your next adventure",
    "Select where you're going and let the AI build your trip plan!",
    "From",
    "To",
    "Dates",
    "Start Date",
    "End Date",
    "Generate Trip",
    "Generating...",
    "Building your trip...",
    "Trip Preview",
    "No trips yet — generate your first one!",
    "No trips yet",
    "Your Trips",
    "Before the Trip",
    "Must See",
    "Select a trip to view its details.",
    "Add New Item",
    "What do you want to add?",
    "Additional notes (optional)",
    "Add item",
    "Title",
    "Notes (optional)",
    "Cancel",
    "Add",
    "Delete this trip?",
    "Delete",
    "Ask about your trip...",
    "Hi 👋 I'm your travel assistant. I can help with flights, hotels, and a day-by-day plan. Where are you flying from and where do you want to go? ✈️",
    "Language",
    "App Language",
    "Log Out")

  const RussianStrings := LocalizedStrings(
    "План",
    "Мои поездки",
    "Чат",
    "Профиль",
    "Спланируй путешествие",
    "Выбери направление — и ИИ построит план поездки!",
    "Откуда",
    "Куда",
    "Даты",
    "Дата выезда",
    "Дата возвращения",
    "Создать поездку",
    "Создание...",
    "ИИ составляет твой маршрут...",
    "Предпросмотр поездки",
    "У тебя пока нет поездок — создай первую!",
    "Пока нет поездок",
    "Твои поездки",
    "Перед поездкой",
    "Места для посещения",
    "Выбери поездку, чтобы увидеть детали.",
    "Добавить пункт",
    "Что добавить?",
    "Дополнительные заметки (опционально)",
    "Добавить пункт",
    "Название",
    "Заметки (необязательно)",
    "Отмена",
    "Добавить",
    "Удалить поездку?",
    "Удалить",
    "Спроси о поездке...",
    "Привет 👋 Я помогу спланировать твою поездку: билеты, отели и план по дням. Откуда вылетаешь и куда хочешь? ✈️",
    "Язык интерфейса",
    "Язык приложения",
    "Выйти")

  /** `LocalizedTextProvider.strings(for:)`: total over the languages, one table
      per language, and the two tables tell the languages apart. */
  function StringsFor(lang: AppLanguage): (r: LocalizedStrings)
    ensures r.tabPlan == (if lang == English then "Plan" else "План")
    ensures r.logoutButton == (if lang == English then "Log Out" else "Выйти")
  {
    match lang
    case English => EnglishStrings
    case Russian => RussianStrings
  }

  /** Every table answers the aliases with the fields they stand for, and no
      two languages share a table. */
  lemma StringsTables(lang: AppLanguage, other: AppLanguage)
    ensures StringsFor(lang).LanguageLabel() == StringsFor(lang).languagePickerLabel
    ensures StringsFor(lang).Logout() == StringsFor(lang).logoutButton
    ensures StringsFor(lang) == StringsFor(other) ==> lang == other
  {
    if lang != other {
      assert StringsFor(lang).tabPlan != StringsFor(other).tabPlan;
    }
  }

  /** A profile's identity is its user id. */
  lemma ProfileIdentity(u: UserProfile)
    ensures u.Id() == u.userId
    ensures forall v: UserProfile :: v.userId == u.userId ==> v.Id() == u.Id()
  {
  }
}
