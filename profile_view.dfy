/** Views/ProfileView.swift without its layout: the name shown for the user and
    the logout button, which resets the three view models it sees. */
module Profile {
  import opened Basics
  import opened Models
  import opened Storage
  import Trips
  import Chat
  import App

  /** The headline name: the user's name unless there is no user or the name is
      empty. */
  function DisplayName(user: Option<UserProfile>): (r: string)
    ensures r != ""
    ensures user.Some? && user.value.name != "" ==> r == user.value.name
    ensures user.None? || user.value.name == "" ==> r == "Traveler"
  {
    if user.Some? && user.value.name != "" then user.value.name else "Traveler"
  }

  /** The line under the name: the user's email, or nothing. */
  function DisplayEmail(user: Option<UserProfile>): (r: string)
    ensures user.Some? ==> r == user.value.email
    ensures user.None? ==> r == ""
  {
    if user.Some? then user.value.email else ""
  }

  /** The stored entries after logout: the chat history and the user are
      removed, everything else (the trips and the selection included) stays. */
  function EntriesAfterLogout(entries: map<string, Stored>): map<string, Stored> {
    entries - {Chat.HistoryKey} - {App.UserKey}
  }

  /** Logout clears the stored chat and user but not the stored trips, so a
      relaunch restores the trips and the selection while the chat starts over
      with the welcome message and nobody is signed in. */
  lemma RelaunchAfterLogout(entries: map<string, Stored>)
    ensures var after := EntriesAfterLogout(entries);
      && Trips.LoadedTrips(after) == Trips.LoadedTrips(entries)
      && Trips.LoadedSelection(after) == Trips.LoadedSelection(entries)
      && Chat.LoadedHistory(after) == []
      && App.LoadedUser(after).None?
      && App.LoadedLanguage(after) == App.LoadedLanguage(entries)
  {
    var after := EntriesAfterLogout(entries);
    assert Trips.TripsKey in after <==> Trips.TripsKey in entries;
    assert Trips.CurrentTripKey in after <==> Trips.CurrentTripKey in entries;
    assert App.LanguageKey in after <==> App.LanguageKey in entries;
  }

  class ProfileView {
    const appVM: App.AppViewModel
    const tripVM: Trips.TripViewModel
    const chatVM: Chat.ChatViewModel
    /** `UserDefaults.standard`, which all three view models use. */
    const defaults: Defaults

    ghost predicate Valid()
      reads this
    {
      appVM.defaults == defaults && tripVM.defaults == defaults && chatVM.defaults == defaults
    }

    constructor (appVM: App.AppViewModel, tripVM: Trips.TripViewModel, chatVM: Chat.ChatViewModel)
      requires tripVM.defaults == appVM.defaults && chatVM.defaults == appVM.defaults
      ensures Valid()
      ensures this.appVM == appVM && this.tripVM == tripVM && this.chatVM == chatVM
    {
      this.appVM := appVM;
      this.tripVM := tripVM;
      this.chatVM := chatVM;
      this.defaults := appVM.defaults;
    }

    /** The logout button: no trips and no selection in memory, an empty chat
        with an empty draft and its stored history removed, and no user. The
        stored trips and selection are not touched. */
    method Logout()
      requires Valid()
      modifies tripVM, chatVM, appVM, defaults
      ensures tripVM.trips == [] && tripVM.currentTripId.None?
      ensures tripVM.isLoadingTrip == old(tripVM.isLoadingTrip) && tripVM.apiError == old(tripVM.apiError)
      ensures chatVM.messages == [] && chatVM.draft == ""
      ensures chatVM.isSending == old(chatVM.isSending) && chatVM.errorText == old(chatVM.errorText)
      ensures appVM.currentUser.None? && appVM.appLanguage == old(appVM.appLanguage)
      ensures defaults.entries == EntriesAfterLogout(old(defaults.entries))
    {
      tripVM.trips := [];
      tripVM.currentTripId := None;
      chatVM.messages := [];
      chatVM.draft := "";
      defaults.entries := defaults.entries - {Chat.HistoryKey};
      appVM.Logout();
    }
  }
}
