# TravelGenie in Dafny

TravelGenie is an iOS travel planner written in SwiftUI. A signed-in user chooses
an origin and a destination (country and city, loaded from Back4App) and a date
range. An OpenAI chat-completions call then generates a trip: flight and hotel
suggestions, a pre-trip checklist, a must-see list and a day-by-day plan. Trips
are saved on the device, and the checklist and must-see lists can be ticked off,
extended and pruned. A chat tab talks to the same model with the last ten
messages as context. Sign-up and log-in go through the Parse REST API on
Back4App, and the interface comes in English and Russian.

This project models the application's logic, minus its views' layout:

- the domain values (`Models`, `LocationModels`, `ChatMessageModel`);
- `UserDefaults` as a dictionary of stored values (`Storage.Defaults`);
- the four view models as classes whose methods change their fields and the
  stored dictionary (`Trips.TripViewModel`, `Chat.ChatViewModel`,
  `App.AppViewModel`, `Locations.LocationService`);
- the two services as functions from a reply to an outcome (`TripApi`,
  `Back4App`);
- the state handling of the plan, my-trip and profile screens (`PlanTrip`,
  `MyTrip`, `Profile`).

Everything the program receives from outside is a parameter:

- HTTP replies are values of `Completions.Reply`, `Back4App.Response` and
  `Locations.QueryReply`;
- the JSON parser the decoder runs on the model's text is `parse`;
- the clock is `now`/`today`;
- the locale's string comparison is an abstract total preorder `le`;
- `UUID()` is `Identity.UuidSource`, which never repeats an identifier.

An `async` operation is split at its `await` into a head, which raises the
loading flag, and a tail, which applies the reply. A method named after the
source function runs the two together.

The central properties are these:

- **Generating a trip:**
  - a reply is classified exactly into the `TripError` taxonomy;
  - the strict `TripJSON` decoder inverts the schema's encoding and ignores
    unknown keys;
  - the mapping onto a `Trip` loses nothing the model said;
  - every identifier it draws is fresh and pairwise distinct.
- **Persistence:** every saved value is what the next launch loads back, and
  saving touches only its own key.
- **Editing trips:**
  - toggling is an involution;
  - removing undoes adding and is idempotent;
  - deleting keeps the order of the remaining trips and never leaves the
    selection on the deleted id.
- **Chat:** the history only grows by appending, and the request window
  slides over it.
- **Location lists:** they are sorted permutations of the server's rows.
- **Sign-in:** login and sign-up refuse blank fields before any request,
  describe every failure, and on success store a profile with a fresh id.

## Model

| member | source | states |
|---|---|---|
| `Basics.TrimEmptyIff` | ViewModels/AppViewModel.swift:60-65 | trimming whitespace and newlines yields the empty string exactly when every character is whitespace (the guard of login, register, the chat draft and the add sheet) |
| `Basics.TrimIdempotent` | ViewModels/ChatViewModel.swift:39 | trimming a trimmed text changes nothing |
| `Basics.ParseNatToString` | Services/TripAPIService.swift:258 | the decimal rendering of a status code parses back to the same number |
| `Basics.IntToStringInjective` | Services/TripAPIService.swift:258 | two different status codes are rendered differently |
| `Basics.FilterConcat` | ViewModels/TripViewModel.swift:73 | `removeAll` distributes over concatenation |
| `Basics.FilterIdempotent` | ViewModels/TripViewModel.swift:103-105 | `removeAll` with the same predicate twice is once |
| `Basics.FilterDropsOne` | ViewModels/TripViewModel.swift:73 | removing the one element that fails the predicate leaves the elements before and after it, in order |
| `Identity.UuidSource.Fresh` | Models/UserProfile.swift:53 | `UUID()` returns an identifier different from every earlier one |
| `Identity.UuidSource.FreshIds` | Services/TripAPIService.swift:185-242 | a batch of `n` identifiers drawn for one trip is pairwise distinct and disjoint from all earlier ones |
| `Models.ChecklistItemTypeFromRaw` | Models/UserProfile.swift:61-64 | `ChecklistItemType(rawValue:)` accepts exactly "preTrip" and "inTrip" and inverts `rawValue` |
| `Models.ListTargetFromRaw` | Models/UserProfile.swift:87-90 | `ListTarget(rawValue:)` accepts exactly "checklist" and "mustSee" and inverts `rawValue` |
| `Models.AppLanguageFromRaw` | Models/UserProfile.swift:94-97 | `AppLanguage(rawValue:)` accepts exactly "en" and "ru" and inverts `rawValue` |
| `Models.RawValuesRoundTrip` | Models/UserProfile.swift:61-97 | each enum case survives the round trip through its raw value |
| `Models.StringsFor` | Models/UserProfile.swift:168-269 | the provider returns the English table for English and the Russian one for Russian |
| `Models.StringsTables` | Models/UserProfile.swift:160-161 | the two aliases answer the fields they stand for, and different languages get different tables |
| `Models.ProfileIdentity` | Models/UserProfile.swift:15 | a profile's `id` is its `userId`, so profiles with the same user id share an id |
| `LocationModels.IdentityVersusEquality` | Models/LocationModels.swift:3-13 | a country is identified by its code and a city by its name, while equality compares every field, so same-named cities of two countries share an id yet differ |
| `ChatMessageModel.SenderFromRaw` | ViewModels/ChatMessageModel.swift:4-7 | `Sender(rawValue:)` accepts exactly "user" and "assistant" and inverts `rawValue` |
| `ChatMessageModel.NewMessage` | ViewModels/ChatMessageModel.swift:14-24 | the initializer keeps the sender, text and timestamp; a defaulted id is fresh, a given one is used as is |
| `ChatMessageModel.TwoDefaultedMessages` | ViewModels/ChatMessageModel.swift:15 | two messages built with defaulted ids have different ids |
| `Storage.Defaults.constructor` | ViewModels/TripViewModel.swift:36-63 | the store starts with the entries present at launch |
| `Completions.FirstChoiceText` | Services/TripAPIService.swift:136-139 | the first choice's content is used exactly when there is a first choice and its content is not blank |
| `TripApi.DescriptionStartsWithTag` | Services/TripAPIService.swift:255-262 | every error description is non-empty and starts with a letter that names its kind |
| `TripApi.DescriptionInjective` | Services/TripAPIService.swift:255-262 | different errors have different descriptions, so the code, body or message can be read back from the text shown |
| `TripApi.BadStatusInjective` | Services/TripAPIService.swift:258 | "Server error <code>: <body>" determines both the code and the body |
| `TripApi.SameLengthRendering` | Services/TripAPIService.swift:258 | the status code in a bad-status description ends at the first ':' |
| `TripApi.ColonEndsRendering` | Services/TripAPIService.swift:258 | in a bad-status description, the first ':' after "Server error " ends the code |
| `TripApi.NoColonInInt` | Services/TripAPIService.swift:258 | a rendered status code holds no ':' |
| `TripApi.DecodeBooking` | Services/TripAPIService.swift:143-152 | `FlightJSON`/`HotelJSON` decode exactly from an object whose "title", "price" and "url" are strings, and the decoded booking holds those three strings |
| `TripApi.DecodeItem` | Services/TripAPIService.swift:153-156 | `ItemJSON` needs a string "title"; "notes" may be missing or null (giving nil) or a string (giving that string), and nothing else; the title is the object's |
| `TripApi.DecodeDay` | Services/TripAPIService.swift:157-162 | `DayJSON` decodes exactly from an object whose "label", "morning", "afternoon" and "evening" are strings, and the decoded day holds those four strings |
| `TripApi.DecodeEach` | Services/TripAPIService.swift:167-169 | an array decodes exactly when every element does, to the elements' values in order |
| `TripApi.DecodeNeedsEveryField` | Services/TripAPIService.swift:164-169 | a decoded `TripJSON` came from an object holding all six keys, each with its JSON type |
| `TripApi.DecodeIgnoresUnknownKeys` | Services/TripAPIService.swift:176-181 | a key outside the schema does not change the decoding |
| `TripApi.EncodeEach` | Services/TripAPIService.swift:167-169 | an encoded array holds the encoded elements in order |
| `TripApi.DecodeEachEncoded` | Services/TripAPIService.swift:167-169 | decoding an array of encoded elements returns the elements, by induction over the array |
| `TripApi.DecodeEncodeBooking` | Services/TripAPIService.swift:143-152 | a booking written as the schema shows decodes to itself |
| `TripApi.DecodeEncodeItem` | Services/TripAPIService.swift:153-156 | an item decodes to itself, and one without notes is written without the key |
| `TripApi.DecodeEncodeDay` | Services/TripAPIService.swift:157-162 | a day written as the schema shows decodes to itself |
| `TripApi.EncodedTripFields` | Services/TripAPIService.swift:44-77 | an encoded trip holds each of the six keys with the encoded field |
| `TripApi.DecodeEncodeTripJson` | Services/TripAPIService.swift:142-181 | every value of the schema, written as the prompt describes it, decodes to itself |
| `TripApi.Classify` | Services/TripAPIService.swift:122-181 | a non-HTTP reply is the network error, a non-2xx status is the bad-status error with the body text or "?", a missing or blank first choice is the empty-response error, a 2xx reply whose envelope does not decode is that decoding error's text, a first choice that does not parse or does not decode as the trip schema is a JSON error prefixed "Failed to decode AI JSON: ", and one that decodes gives exactly that decoded value; success means a 2xx reply whose first choice parses and decodes to the result |
| `TripApi.MapItems` | Services/TripAPIService.swift:199-219 | the mapped list is as long as the decoded one and maps each item in place |
| `TripApi.MapDays` | Services/TripAPIService.swift:221-229 | the mapped days are as many as the decoded ones and map each day in place |
| `TripApi.GeneratedTripShape` | Services/TripAPIService.swift:185-242 | the trip has the caller's dates and the model's destination, copies both suggestions, keeps every list's length and order, and creates items not done, without a link, typed `preTrip` for the checklist and `inTrip` for must-see, with no remote id |
| `TripApi.ItemsJsonOf` | Services/TripAPIService.swift:199-219 | reading items back as JSON keeps length and order |
| `TripApi.DaysJsonOf` | Services/TripAPIService.swift:221-229 | reading days back as JSON keeps length and order |
| `TripApi.MapTripLosesNothing` | Services/TripAPIService.swift:185-242 | the decoded JSON can be read back from the generated trip |
| `TripApi.MapTripDeterminedByIds` | Services/TripAPIService.swift:231-242 | a generated trip carries exactly the identifiers it was given, so it is determined by the JSON, the dates and those identifiers |
| `TripApi.SplitIds` | Services/TripAPIService.swift:185-232 | one batch of identifiers covers the flight, the hotel, every item, every day and the trip |
| `TripApi.SplitIdsInOrder` | Services/TripAPIService.swift:185-232 | the batch is handed out in the order the source draws: flight, hotel, checklist, must-see, days, trip |
| `TripApi.RequesterName` | Services/TripAPIService.swift:34 | the prompt addresses the user by name, or "Traveler" when nobody is signed in |
| `TripApi.IdSet` | Services/TripAPIService.swift:185-242 | the set holds exactly the identifiers a trip carries |
| `TripApi.GeneratedIdFresh` | Services/TripAPIService.swift:232 | a generated trip's id is new |
| `TripApi.GenerateTrip` | Services/TripAPIService.swift:19-245 | a reply that classifies as an error is returned as that error and draws no id; one that classifies as decoded JSON yields the trip mapped from it, all of whose identifiers are fresh and pairwise distinct, and the drawn identifiers are exactly the trip's |
| `Trips.LoadedTrips` | ViewModels/TripViewModel.swift:36-42 | the trips are the stored ones; a missing key or a stored value that is not a trip list gives none |
| `Trips.LoadedSelection` | ViewModels/TripViewModel.swift:50-55 | a selection is restored exactly when the key holds a UUID string |
| `Trips.InitialSelection` | ViewModels/TripViewModel.swift:20-25 | a stored selection is kept; without one the first trip is selected; there is none only with no stored selection and no trips |
| `Trips.SaveLoadRoundTrip` | ViewModels/TripViewModel.swift:36-63 | the saved trips and selection are what is loaded back, and each save touches only its own key |
| `Trips.TripIndex` | ViewModels/TripViewModel.swift:84 | the index is the first trip carrying the selected id, and there is none exactly when nothing is selected or no trip carries it |
| `Trips.ItemIndex` | ViewModels/TripViewModel.swift:86 | the index is the first item carrying the id, and there is none exactly when no item carries it |
| `Trips.ItemIndexByIds` | ViewModels/TripViewModel.swift:86-91 | the item lookup depends on the identifiers alone |
| `Trips.ToggleSpec` | ViewModels/TripViewModel.swift:83-96 | toggling flips exactly the first item with the id, checklist first, then must-see; everything else stays; nothing happens only when neither list holds the id |
| `Trips.ToggleInvolution` | ViewModels/TripViewModel.swift:83-96 | toggling the same item twice restores the trip |
| `Trips.RemoveSpec` | ViewModels/TripViewModel.swift:98-108 | removal deletes every item with the id from the targeted list only, keeps its other items, and leaves the other list alone |
| `Trips.AddSpec` | ViewModels/TripViewModel.swift:110-129 | adding appends one new item, not done, without a link, typed by its list, after the existing ones; the other list is untouched |
| `Trips.RemoveUndoesAdd` | ViewModels/TripViewModel.swift:98-129 | removing an item just added under a new id restores the trip |
| `Trips.RemoveIdempotent` | ViewModels/TripViewModel.swift:98-108 | removing twice is removing once |
| `Trips.EditCurrent` | ViewModels/TripViewModel.swift:84-129 | an edit replaces only the selected trip, and does nothing when no trip carries the selected id |
| `Trips.DeleteSpec` | ViewModels/TripViewModel.swift:72-79 | no trip with the id remains, every other trip does, and the selection stays unless it was deleted, when it moves to the first remaining trip, or to none when no trip remains, and never names the deleted id |
| `Trips.DeleteKeepsOrder` | ViewModels/TripViewModel.swift:73 | the remaining trips keep their order |
| `Trips.DeleteIdempotent` | ViewModels/TripViewModel.swift:72-79 | deleting the same trip twice is deleting it once |
| `Trips.TripViewModel.constructor` | ViewModels/TripViewModel.swift:20-25 | launch loads the stored trips and selection and selects the first trip when nothing was selected |
| `Trips.TripViewModel.CurrentTrip` | ViewModels/TripViewModel.swift:29-32 | the current trip is the first trip in the list carrying the selected id, and there is none exactly when nothing is selected or no trip carries it |
| `Trips.TripViewModel.SaveTrips` | ViewModels/TripViewModel.swift:44-48 | the trips are stored under their key |
| `Trips.TripViewModel.SaveCurrentTripId` | ViewModels/TripViewModel.swift:57-63 | the selection is stored, or its key removed |
| `Trips.TripViewModel.SelectTrip` | ViewModels/TripViewModel.swift:67-70 | the id becomes the selection and is saved, whether or not a trip carries it |
| `Trips.TripViewModel.DeleteTrip` | ViewModels/TripViewModel.swift:72-79 | the trips and the selection become `AfterDelete` of the old ones, and both are saved |
| `Trips.TripViewModel.ToggleChecklistItem` | ViewModels/TripViewModel.swift:83-96 | the selected trip is toggled and saved when an item was found; otherwise nothing changes |
| `Trips.TripViewModel.RemoveChecklistItem` | ViewModels/TripViewModel.swift:98-108 | the targeted list of the selected trip is pruned and the trips saved whenever a trip is selected |
| `Trips.TripViewModel.AddChecklistItem` | ViewModels/TripViewModel.swift:110-129 | with a selected trip a new item with a fresh id is appended to the targeted list and the trips saved; without one nothing changes and no id is drawn |
| `Trips.TripViewModel.BeginGeneration` | ViewModels/TripViewModel.swift:140-141 | generation raises the loading flag and clears the error |
| `Trips.TripViewModel.CompleteGeneration` | ViewModels/TripViewModel.swift:142-158 | a new trip is appended, selected and saved; a failure is recorded by its description and changes nothing else; loading ends either way |
| `Trips.TripViewModel.GenerateTrip` | ViewModels/TripViewModel.swift:133-159 | on a usable reply the trips grow by one trip generated from it with fresh identifiers, which becomes the selection, both are saved, and exactly the trip's identifiers are drawn; otherwise the error's description is recorded, no identifier is drawn and nothing else changes |
| `Chat.LoadedHistory` | ViewModels/ChatViewModel.swift:156-161 | the history is the stored one; a missing key or a stored value that is not a message list gives an empty one |
| `Chat.HistoryRoundTrip` | ViewModels/ChatViewModel.swift:146-161 | the saved history is what is loaded back, and saving touches no other key |
| `Chat.RequestWindow` | ViewModels/ChatViewModel.swift:63-72 | the request carries the last ten messages, or all of them when there are fewer |
| `Chat.RequestWindowSpec` | ViewModels/ChatViewModel.swift:63-72 | the window holds the latest messages oldest first, each with its sender's role and its text, the newest last |
| `Chat.RequestWindowSlides` | ViewModels/ChatViewModel.swift:63 | once the history holds ten messages, a new one pushes the oldest out of the window |
| `Chat.ReplyText` | ViewModels/ChatViewModel.swift:91-132 | a reply is used exactly when it is a 2xx response whose first choice is not blank, and then untrimmed; a non-HTTP response is the network error and a non-2xx status the bad-status error |
| `Chat.ChatViewModel.constructor` | ViewModels/ChatViewModel.swift:22-35 | launch restores the history; an empty one becomes the welcome message from the assistant, with the one identifier drawn, saved at once |
| `Chat.ChatViewModel.SendCurrentDraft` | ViewModels/ChatViewModel.swift:38-54 | a blank draft changes nothing; otherwise the trimmed text is appended as a new user message with a fresh id, the only one drawn, and saved, and the draft and error are cleared |
| `Chat.ChatViewModel.BeginReply` | ViewModels/ChatViewModel.swift:57-79 | sending raises the flag and builds the request for "gpt-4o-mini" from the window |
| `Chat.ChatViewModel.CompleteReply` | ViewModels/ChatViewModel.swift:93-142 | a usable reply is appended as the assistant's message, with the one fresh id drawn, and saved; any failure draws no id, sets "Sorry, I couldn't reply." and changes nothing else |
| `Chat.ChatViewModel.SendToOpenAI` | ViewModels/ChatViewModel.swift:57-143 | the request comes from the history before the reply; a usable reply is appended as the assistant's message with the one fresh id drawn and saved, a failure sets the apology and draws nothing, and the sending flag is down afterwards |
| `Locations.Rows` | Services/LocationService.swift:51-54 | a query yields rows exactly on a 2xx response whose body decodes |
| `Locations.CountriesOf` | Services/LocationService.swift:67-69 | each row becomes the country with its code and name, in place |
| `Locations.CitiesOf` | Services/LocationService.swift:120-122 | each row becomes the city with its country code and name, in place |
| `Sorting.Insert` | Services/LocationService.swift:71 | inserting into a sorted list keeps it sorted and adds exactly the new element |
| `Sorting.SortBy` | Services/LocationService.swift:71 | the sorted list is ordered by name and a permutation of the input |
| `Locations.PermutationSameElements` | Services/LocationService.swift:123 | a permutation holds the same elements |
| `Locations.CountryListSpec` | Services/LocationService.swift:67-71 | the shown countries are the server's rows, each once, in name order |
| `Locations.LocationService.constructor` | Services/LocationService.swift:6-12 | the service starts with no countries, no cached cities, nothing loading and no error |
| `Locations.LocationService.Cities` | Services/LocationService.swift:25-27 | the cached cities of the country, in name order, or none |
| `Locations.LocationService.BeginCountries` | Services/LocationService.swift:39-42 | loading countries raises its flag and clears the error |
| `Locations.LocationService.FinishCountries` | Services/LocationService.swift:51-76 | the rows replace the countries, sorted, or the list is kept and "Failed to load countries" set; the flag drops |
| `Locations.LocationService.LoadCountriesIfNeeded` | Services/LocationService.swift:20-23 | countries are fetched exactly while the list is empty |
| `Locations.LocationService.BeginCities` | Services/LocationService.swift:80-83 | the country's code is marked loading and the error cleared |
| `Locations.LocationService.FinishCities` | Services/LocationService.swift:106-130 | the sorted rows are cached under the requested code and no other entry changes, or "Failed to load cities" is set; the code stops loading |
| `Locations.LocationService.LoadCitiesIfNeeded` | Services/LocationService.swift:29-34 | a country is fetched exactly when it has no cache entry, even an empty one, and a failed load leaves it uncached |
| `Back4App.RegisterRequest` | Services/Back4AppService.swift:38-51 | sign-up is a POST to /users whose body holds the email as both username and email, the password and the name |
| `Back4App.LoginRequest` | Services/Back4AppService.swift:57-68 | log-in is a GET to /login with the username and password as query items, in that order |
| `Back4App.Perform` | Services/Back4AppService.swift:81-103 | a 2xx body is returned; a non-HTTP response is the invalid-response error; another status carries Parse's error text, else the body text, else "Unknown error"; a thrown error becomes a network error |
| `Back4App.DecodeUser` | Services/Back4AppService.swift:105-112 | a body decodes as a user exactly when the decoder accepts it; a failure carries the decoder's error followed by the raw body text |
| `Back4App.ExchangeSpec` | Services/Back4AppService.swift:3-112 | a call succeeds exactly on a 2xx response that decodes as a user; a rejected call shows Parse's own message; a network or decoding failure is described with a prefix naming its kind |
| `App.LoadedLanguage` | ViewModels/AppViewModel.swift:26-29 | a stored raw value that names a language selects that language; a missing key, a non-string value or an unknown raw value falls back to English |
| `App.LoadedUser` | ViewModels/AppViewModel.swift:32-35 | a user is restored exactly when the stored data decodes as a profile |
| `App.SessionRoundTrip` | ViewModels/AppViewModel.swift:40-53 | the saved language and user are what the next launch restores, and the two keys do not disturb each other |
| `App.LoginProfile` | ViewModels/AppViewModel.swift:73-80 | the profile takes the server's name, else its username, else the typed email, and the server's email, else the typed one |
| `App.RegisterProfile` | ViewModels/AppViewModel.swift:107-114 | the profile takes the typed name and email whatever the server echoes |
| `App.AppViewModel.constructor` | ViewModels/AppViewModel.swift:24-36 | launch restores the language and the user |
| `App.AppViewModel.Strings` | ViewModels/AppViewModel.swift:13-15 | the strings are the English table exactly in English and the Russian one exactly in Russian |
| `App.AppViewModel.SetLanguage` | ViewModels/AppViewModel.swift:50-53 | the language changes and its raw value is stored |
| `App.AppViewModel.Login` | ViewModels/AppViewModel.swift:59-89 | blank credentials are refused before any request; otherwise the trimmed ones are sent, a failure returns its description and changes nothing, and a success stores a profile with a fresh id, the only one drawn |
| `App.AppViewModel.Register` | ViewModels/AppViewModel.swift:91-123 | as `Login`, with the name required too and the profile taking the typed name and email |
| `App.AppViewModel.Logout` | ViewModels/AppViewModel.swift:125-128 | nobody is signed in and the stored user is removed |
| `MyTrip.AddSheetSubmission` | Views/MyTripView.swift:380-381 | the sheet submits exactly when the title is not blank, passes the title untrimmed, and passes empty notes as nil |
| `MyTrip.MyTripView.constructor` | Views/MyTripView.swift:7-8 | the sheet starts closed, addressed to the checklist |
| `MyTrip.MyTripView.OnAppear` | Views/MyTripView.swift:73-78 | with no selection and some trips the first trip is selected and saved; otherwise nothing changes; the trips, the loading flag and the error are never touched |
| `MyTrip.MyTripView.AddTap` | Views/MyTripView.swift:32-35 | a section's "+" remembers its list and opens the sheet |
| `MyTrip.MyTripView.DeleteInSection` | Views/MyTripView.swift:31 | a section's delete removes from that section's own list and saves the trips when a trip is selected; the loading flag and error are untouched |
| `MyTrip.MyTripView.ToggleInSection` | Views/MyTripView.swift:30 | both sections toggle through the same lookup, checklist first, and save the trips when a trip is selected; the loading flag and error are untouched |
| `MyTrip.MyTripView.ConfirmAdd` | Views/MyTripView.swift:66 | a blank title changes nothing; otherwise the item goes to the list the sheet was opened for, with a fresh id that is the only one drawn, the trips are saved, and the sheet closes |
| `PlanTrip.PlaceLabel` | Views/PlanTripView.swift:314-315 | a label is the city name, ", " and the country name |
| `PlanTrip.PlaceLabelParts` | Views/PlanTripView.swift:314-315 | the city and country names can be read back from a label |
| `PlanTrip.PlanTripView.constructor` | Views/PlanTripView.swift:9-18 | nothing is chosen, the dates are today and five days later, and no preview is shown |
| `PlanTrip.PlanTripView.CanGenerateNow` | Views/PlanTripView.swift:298-304 | generation is possible exactly when all four places are chosen and the start is not after the end |
| `PlanTrip.PlanTripView.GenerateButtonDisabled` | Views/PlanTripView.swift:260 | the button is disabled while a generation runs, when the start is after the end, or when a place is missing; enabled means all places are chosen, the dates are in order and nothing is running |
| `PlanTrip.PlanTripView.SetOriginCountry` | Views/PlanTripView.swift:97-101 | choosing an origin country clears the origin city, asks for that country's cities and disables the generate button |
| `PlanTrip.PlanTripView.SetDestCountry` | Views/PlanTripView.swift:173-177 | choosing a destination country clears the destination city, asks for that country's cities and disables the generate button |
| `PlanTrip.PlanTripView.HandleGenerate` | Views/PlanTripView.swift:306-328 | nothing happens unless all four places are chosen; otherwise the trip store generates with the two labels and the current user, and the preview opens exactly when generation succeeded; an enabled button always starts a generation, whose outcome in the trip store (trips, selection, error, saved entries, identifiers drawn) is the store's own |
| `Profile.DisplayName` | Views/ProfileView.swift:56 | the headline is the user's name, or "Traveler" with no user or an empty name |
| `Profile.DisplayEmail` | Views/ProfileView.swift:60 | the line under it is the user's email, or empty |
| `Profile.RelaunchAfterLogout` | Views/ProfileView.swift:90-101 | after logout the next launch has no user and an empty stored chat but the same stored trips, selection and language |
| `Profile.ProfileView.constructor` | Views/ProfileView.swift:5-7 | the screen shares one store with the three view models |
| `Profile.ProfileView.Logout` | Views/ProfileView.swift:90-101 | the trips, selection, chat and draft in memory are cleared, the stored chat and user are removed, and nobody is signed in; the language, the loading flag, the trip error, the sending flag and the chat error are kept |

## Left out

- The network: URLSession, the request headers, the base URLs and keys from
  `Secrets`, and the prose of the two prompts. The model name and temperature
  are constants of the request and are not modelled. Every reply is an input.
- JSON encoding and decoding of stored values. A stored value records what was
  written. `Corrupt` stands for data that no longer decodes. The JSON parser
  of the trip reply is the `parse` parameter. The decoder's own error texts are
  opaque: a text that is not JSON gets the detail "dataCorrupted", and a
  schema failure names the first failing key in a simplified form.
- The branch of TripAPIService.swift:172-174 where the model's text is not
  UTF-8. Swift strings always encode to UTF-8, so it cannot be taken.
- Building the login URL failing (Back4AppService.swift:64). Whether it can
  fail depends on the base URL from `Secrets`, which is not part of this model.
- Dates are opaque integers. `DateFormatter`, `Trip.durationDays` and the
  calendar arithmetic of the plan screen's default end date are not modelled;
  that date is an input.
- The avatar image: decoding `avatarImageDataBase64` into an image.
- Concurrency. Each `Task` and `await` is modelled as its head followed by its
  tail. Interleavings of two loads, or a reply arriving after logout, are not.
- The console prints.
- `localizedCaseInsensitiveCompare` is an abstract total preorder. The model
  promises only order and permutation, not the stability of Swift's sort.
- `UUID()` is a counter that never repeats within the model. Its freshness
  against identifiers loaded from storage is not modelled.
- `ChecklistItem`, `Trip` and `DayPlan` have `var` fields in the source.
  Here they are immutable datatypes, updated by copying with a changed field.
- The views' layout, and the screens not named above (login, register, chat,
  tabs, detail cards), which only forward to the view models.
- Models.StringsFor: its contract pins two fields per language; the other
  fields are the constants written out in `Models.EnglishStrings` and
  `Models.RussianStrings`.
- Locations.LocationService.FinishCountries: states the new list as a
  permutation of the rows (and sorted, through `Valid`), not as the exact
  output of Swift's sort.

Where the code and its intended design differ, this model follows the code:

- The generated trip's destination is the one the model's JSON names, not the
  "City, Country" label that was requested.
- `selectTrip` accepts an id that no trip carries, and a restored selection
  is not checked against the loaded trips.
- `loadCitiesIfNeeded` looks only at the cache, not at `isLoadingCities`.
- Logging out clears the stored chat and user but leaves the stored trips and
  selection (`Profile.RelaunchAfterLogout`).
- The assistant's reply is stored untrimmed, and the add sheet passes its
  title untrimmed.
