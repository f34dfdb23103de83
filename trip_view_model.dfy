/** ViewModels/TripViewModel.swift: the saved trips, the selected trip, the edits
    of a trip's two lists, and trip generation, persisted in `UserDefaults`. The
    state changes are stated through the value-level functions below, whose
    properties are proved as lemmas. */
module Trips {
  import opened Basics
  import opened Models
  import opened Storage
  import Identity
  import TripApi
  import Completions
  import Json

  const TripsKey := "tg_trips_v1"
  const CurrentTripKey := "tg_current_trip_id_v1"

  // ---------------------------------------------------------------------------
  // Persistence

  /** `loadTripsFromStorage`: the stored trips, or none when the key is missing
      or its data does not decode as `[Trip]`. */
  function LoadedTrips(entries: map<string, Stored>): (r: seq<Trip>)
    ensures TripsKey !in entries ==> r == []
    ensures TripsKey in entries && !entries[TripsKey].TripsData? ==> r == []
    ensures TripsKey in entries && entries[TripsKey].TripsData? ==> r == entries[TripsKey].trips
  {
    if TripsKey in entries && entries[TripsKey].TripsData? then entries[TripsKey].trips else []
  }

  /** `loadCurrentTripId`: the stored id, if the key holds a UUID string. */
  function LoadedSelection(entries: map<string, Stored>): (r: Option<Uuid>)
    ensures r.Some? <==> CurrentTripKey in entries && entries[CurrentTripKey].UuidText?
  {
    if CurrentTripKey in entries && entries[CurrentTripKey].UuidText? then Some(entries[CurrentTripKey].id) else None
  }

  /** The selection after `init`: the stored one, else the first trip's id. A
      stored id is kept whether or not a loaded trip carries it. */
  function InitialSelection(trips: seq<Trip>, stored: Option<Uuid>): (r: Option<Uuid>)
    ensures stored.Some? ==> r == stored
    ensures stored.None? && trips != [] ==> r == Some(trips[0].id)
    ensures r.None? <==> stored.None? && trips == []
  {
    if stored.None? && trips != [] then Some(trips[0].id) else stored
  }

  /** `saveTripsToStorage` (encoding `[Trip]` does not fail). */
  function SavedTrips(entries: map<string, Stored>, trips: seq<Trip>): map<string, Stored> {
    entries[TripsKey := TripsData(trips)]
  }

  /** `saveCurrentTripId`: the id's string, or the key removed. */
  function SavedSelection(entries: map<string, Stored>, selection: Option<Uuid>): map<string, Stored> {
    match selection
    case Some(id) => entries[CurrentTripKey := UuidText(id)]
    case None => entries - {CurrentTripKey}
  }

  /** What is saved is what is loaded back, and saving touches only its own key. */
  lemma SaveLoadRoundTrip(entries: map<string, Stored>, trips: seq<Trip>, selection: Option<Uuid>)
    ensures LoadedTrips(SavedTrips(entries, trips)) == trips
    ensures LoadedSelection(SavedSelection(entries, selection)) == selection
    ensures LoadedSelection(SavedTrips(entries, trips)) == LoadedSelection(entries)
    ensures LoadedTrips(SavedSelection(entries, selection)) == LoadedTrips(entries)
    ensures forall k :: k != TripsKey && k in entries ==> k in SavedTrips(entries, trips) && SavedTrips(entries, trips)[k] == entries[k]
    ensures forall k :: k != CurrentTripKey ==> (k in SavedSelection(entries, selection) <==> k in entries)
  {
  }

  // ---------------------------------------------------------------------------
  // Looking up trips and items

  function HasTripId(id: Uuid): Trip -> bool {
    (t: Trip) => t.id == id
  }

  /** `trips.firstIndex(where: { $0.id == currentTripId })`: with no selection no
      trip matches. */
  function TripIndex(trips: seq<Trip>, current: Option<Uuid>): (r: Option<nat>)
    ensures r.Some? ==> current.Some? && r.value < |trips| && trips[r.value].id == current.value
    ensures r.Some? ==> forall k :: 0 <= k < r.value ==> trips[k].id != current.value
    ensures r.None? <==> current.None? || forall k :: 0 <= k < |trips| ==> trips[k].id != current.value
  {
    match current
    case None => None
    case Some(id) => FirstIndex(trips, HasTripId(id))
  }

  function HasItemId(id: Uuid): ChecklistItem -> bool {
    (item: ChecklistItem) => item.id == id
  }

  /** `firstIndex(where: { $0.id == itemId })` on a list of items. */
  function ItemIndex(items: seq<ChecklistItem>, id: Uuid): (r: Option<nat>)
    ensures r.Some? ==> r.value < |items| && items[r.value].id == id
    ensures r.Some? ==> forall k :: 0 <= k < r.value ==> items[k].id != id
    ensures r.None? <==> forall k :: 0 <= k < |items| ==> items[k].id != id
  {
    FirstIndex(items, HasItemId(id))
  }

  predicate SameIds(a: seq<ChecklistItem>, b: seq<ChecklistItem>) {
    |a| == |b| && forall k :: 0 <= k < |a| ==> a[k].id == b[k].id
  }

  /** The lookup depends on the identifiers alone. */
  lemma ItemIndexByIds(a: seq<ChecklistItem>, b: seq<ChecklistItem>, id: Uuid)
    requires SameIds(a, b)
    ensures ItemIndex(a, id) == ItemIndex(b, id)
  {
    assert forall k :: 0 <= k < |a| ==> (a[k].id == id <==> b[k].id == id);
  }

  // ---------------------------------------------------------------------------
  // Toggling an item

  function Flipped(item: ChecklistItem): ChecklistItem {
    item.(isDone := !item.isDone)
  }

  /** The trip with the first item carrying `itemId` flipped, looking in the
      checklist first and then in the must-see list; `None` when neither list
      holds it. */
  function ToggledTrip(t: Trip, itemId: Uuid): Option<Trip> {
    match ItemIndex(t.checklist, itemId)
    case Some(i) => Some(t.(checklist := t.checklist[i := Flipped(t.checklist[i])]))
    case None =>
      match ItemIndex(t.mustSeeList, itemId)
      case Some(i) => Some(t.(mustSeeList := t.mustSeeList[i := Flipped(t.mustSeeList[i])]))
      case None => None
  }

  /** Toggling flips exactly one item, the first with that id, preferring the
      checklist, and leaves the rest of the trip as it was; it does nothing only
      when no item of either list has that id. */
  lemma ToggleSpec(t: Trip, itemId: Uuid)
    ensures ToggledTrip(t, itemId).None?
            <==> (forall k :: 0 <= k < |t.checklist| ==> t.checklist[k].id != itemId)
                 && (forall k :: 0 <= k < |t.mustSeeList| ==> t.mustSeeList[k].id != itemId)
    ensures ToggledTrip(t, itemId).Some? ==>
      var u := ToggledTrip(t, itemId).value;
      && u.(checklist := t.checklist, mustSeeList := t.mustSeeList) == t
      && SameIds(u.checklist, t.checklist) && SameIds(u.mustSeeList, t.mustSeeList)
    ensures ToggledTrip(t, itemId).Some? && ItemIndex(t.checklist, itemId).Some? ==>
      var u := ToggledTrip(t, itemId).value;
      && u.mustSeeList == t.mustSeeList
      && var i := ItemIndex(t.checklist, itemId).value;
         && u.checklist[i].isDone == !t.checklist[i].isDone
         && u.checklist[i] == Flipped(t.checklist[i])
         && forall k :: 0 <= k < |t.checklist| && k != i ==> u.checklist[k] == t.checklist[k]
    ensures ToggledTrip(t, itemId).Some? && (forall k :: 0 <= k < |t.checklist| ==> t.checklist[k].id != itemId) ==>
      var u := ToggledTrip(t, itemId).value;
      && u.checklist == t.checklist
      && var i := ItemIndex(t.mustSeeList, itemId).value;
         && u.mustSeeList[i] == Flipped(t.mustSeeList[i])
         && forall k :: 0 <= k < |t.mustSeeList| && k != i ==> u.mustSeeList[k] == t.mustSeeList[k]
  {
  }

  /** Toggling the same item twice restores the trip. */
  lemma ToggleInvolution(t: Trip, itemId: Uuid)
    requires ToggledTrip(t, itemId).Some?
    ensures ToggledTrip(ToggledTrip(t, itemId).value, itemId) == Some(t)
  {
    var u := ToggledTrip(t, itemId).value;
    ItemIndexByIds(u.checklist, t.checklist, itemId);
    ItemIndexByIds(u.mustSeeList, t.mustSeeList, itemId);
    match ItemIndex(t.checklist, itemId)
    case Some(i) =>
      assert u.checklist[i := Flipped(u.checklist[i])] == t.checklist;
    case None =>
      var i := ItemIndex(t.mustSeeList, itemId).value;
      assert u.mustSeeList[i := Flipped(u.mustSeeList[i])] == t.mustSeeList;
  }

  // ---------------------------------------------------------------------------
  // Removing and adding items

  function NotItemId(id: Uuid): ChecklistItem -> bool {
    (item: ChecklistItem) => item.id != id
  }

  /** `removeAll { $0.id == itemId }` on the targeted list only. */
  function RemovedFromTrip(t: Trip, itemId: Uuid, target: ListTarget): Trip {
    match target
    case Checklist => t.(checklist := Filter(t.checklist, NotItemId(itemId)))
    case MustSee => t.(mustSeeList := Filter(t.mustSeeList, NotItemId(itemId)))
  }

  /** The item `addChecklistItem` creates: not done, no link, typed by the list. */
  function NewItem(id: Uuid, title: string, notes: Option<string>, target: ListTarget): ChecklistItem {
    ChecklistItem(id, title, notes, None, false, target.ItemType())
  }

  function AddedToTrip(t: Trip, item: ChecklistItem, target: ListTarget): Trip {
    match target
    case Checklist => t.(checklist := t.checklist + [item])
    case MustSee => t.(mustSeeList := t.mustSeeList + [item])
  }

  function ListOf(t: Trip, target: ListTarget): seq<ChecklistItem> {
    match target
    case Checklist => t.checklist
    case MustSee => t.mustSeeList
  }

  /** Removal deletes every item with that id from the targeted list, keeps every
      other item of it, and leaves the other list alone even when it holds an
      item with the same id. */
  lemma RemoveSpec(t: Trip, itemId: Uuid, target: ListTarget, other: ListTarget)
    requires other != target
    ensures var u := RemovedFromTrip(t, itemId, target);
      && (forall item :: item in ListOf(u, target) ==> item.id != itemId)
      && (forall item :: item in ListOf(t, target) && item.id != itemId ==> item in ListOf(u, target))
      && (forall item :: item in ListOf(u, target) ==> item in ListOf(t, target))
      && ListOf(u, other) == ListOf(t, other)
      && u.(checklist := t.checklist, mustSeeList := t.mustSeeList) == t
  {
  }

  /** Adding appends one item, not done and typed by its list, after the
      existing ones; the other list is untouched. */
  lemma AddSpec(t: Trip, id: Uuid, title: string, notes: Option<string>, target: ListTarget, other: ListTarget)
    requires other != target
    ensures var u := AddedToTrip(t, NewItem(id, title, notes, target), target);
      && ListOf(u, target)[..|ListOf(t, target)|] == ListOf(t, target)
      && |ListOf(u, target)| == |ListOf(t, target)| + 1
      && ListOf(u, other) == ListOf(t, other)
      && var item := ListOf(u, target)[|ListOf(t, target)|];
         && item.id == id && item.title == title && item.notes == notes
         && !item.isDone && item.link.None?
         && (item.itemType == PreTrip <==> target == Checklist)
  {
  }

  /** Removing an item just added, under an id not already in that list,
      restores the trip. */
  lemma RemoveUndoesAdd(t: Trip, id: Uuid, title: string, notes: Option<string>, target: ListTarget)
    requires forall item :: item in ListOf(t, target) ==> item.id != id
    ensures RemovedFromTrip(AddedToTrip(t, NewItem(id, title, notes, target), target), id, target) == t
  {
    var item := NewItem(id, title, notes, target);
    var items := ListOf(t, target);
    FilterConcat(items, [item], NotItemId(id));
    FilterKeepsAll(items, NotItemId(id));
    assert Filter([item], NotItemId(id)) == [];
  }

  /** Removing twice is removing once. */
  lemma RemoveIdempotent(t: Trip, itemId: Uuid, target: ListTarget)
    ensures RemovedFromTrip(RemovedFromTrip(t, itemId, target), itemId, target) == RemovedFromTrip(t, itemId, target)
  {
    FilterIdempotent(ListOf(t, target), NotItemId(itemId));
  }

  // ---------------------------------------------------------------------------
  // Edits of the selected trip

  /** An edit of the selected trip applied to the list of trips; `None` when no
      trip is selected or the selected id matches no trip. */
  function EditCurrent(trips: seq<Trip>, current: Option<Uuid>, edited: Trip -> Option<Trip>): (r: Option<seq<Trip>>)
    ensures r.Some? ==> TripIndex(trips, current).Some?
    ensures r.Some? ==> var i := TripIndex(trips, current).value;
      && |r.value| == |trips|
      && Some(r.value[i]) == edited(trips[i])
      && forall k :: 0 <= k < |trips| && k != i ==> r.value[k] == trips[k]
    ensures r.None? ==> TripIndex(trips, current).None? || edited(trips[TripIndex(trips, current).value]).None?
  {
    match TripIndex(trips, current)
    case None => None
    case Some(i) =>
      match edited(trips[i])
      case None => None
      case Some(u) => Some(trips[i := u])
  }

  function ToggleEdit(itemId: Uuid): Trip -> Option<Trip> {
    (t: Trip) => ToggledTrip(t, itemId)
  }

  function RemoveEdit(itemId: Uuid, target: ListTarget): Trip -> Option<Trip> {
    (t: Trip) => Some(RemovedFromTrip(t, itemId, target))
  }

  function AddEdit(item: ChecklistItem, target: ListTarget): Trip -> Option<Trip> {
    (t: Trip) => Some(AddedToTrip(t, item, target))
  }

  // ---------------------------------------------------------------------------
  // Deleting trips

  function NotTripId(id: Uuid): Trip -> bool {
    (t: Trip) => t.id != id
  }

  /** `deleteTrip`: every trip with that id goes; a deleted selection moves to
      the first remaining trip, or to none. */
  function AfterDelete(trips: seq<Trip>, current: Option<Uuid>, id: Uuid): (seq<Trip>, Option<Uuid>) {
    var remaining := Filter(trips, NotTripId(id));
    (remaining, if current == Some(id) then (if remaining == [] then None else Some(remaining[0].id)) else current)
  }

  /** No trip with the deleted id remains, every other trip does, and the
      selection never points at the deleted id afterwards: it stays put unless
      it was deleted, and then moves to the first remaining trip, or to none
      when no trip remains. */
  lemma DeleteSpec(trips: seq<Trip>, current: Option<Uuid>, id: Uuid)
    ensures var (remaining, selection) := AfterDelete(trips, current, id);
      && (forall t :: t in remaining ==> t.id != id)
      && (forall t :: t in trips && t.id != id ==> t in remaining)
      && (forall t :: t in remaining ==> t in trips)
      && selection != Some(id)
      && (current != Some(id) ==> selection == current)
      && (current == Some(id) ==> selection == (if remaining == [] then None else Some(remaining[0].id)))
  {
  }

  /** The remaining trips keep their order: deleting a trip from between two
      runs of other trips leaves exactly those runs. */
  lemma DeleteKeepsOrder(before: seq<Trip>, doomed: Trip, after: seq<Trip>, current: Option<Uuid>)
    requires forall t :: t in before + after ==> t.id != doomed.id
    ensures AfterDelete(before + [doomed] + after, current, doomed.id).0 == before + after
  {
    FilterDropsOne(before, doomed, after, NotTripId(doomed.id));
  }

  /** Deleting the same trip twice is deleting it once. */
  lemma DeleteIdempotent(trips: seq<Trip>, current: Option<Uuid>, id: Uuid)
    ensures var (r1, s1) := AfterDelete(trips, current, id);
            AfterDelete(r1, s1, id) == (r1, s1)
  {
    FilterIdempotent(trips, NotTripId(id));
  }

  // ---------------------------------------------------------------------------
  // The view model

  class TripViewModel {
    var trips: seq<Trip>
    var currentTripId: Option<Uuid>
    var isLoadingTrip: bool
    var apiError: Option<string>
    const defaults: Defaults
    const ids: Identity.UuidSource

    ghost predicate Valid()
      reads this, ids
    {
      ids.Valid()
    }

    /** `init`: loads the trips and the selection, and selects the first trip
        when nothing was selected. Nothing is written back. */
    constructor (defaults: Defaults, ids: Identity.UuidSource)
      requires ids.Valid()
      ensures Valid()
      ensures this.defaults == defaults && this.ids == ids
      ensures trips == LoadedTrips(defaults.entries)
      ensures currentTripId == InitialSelection(trips, LoadedSelection(defaults.entries))
      ensures !isLoadingTrip && apiError.None?
    {
      this.defaults := defaults;
      this.ids := ids;
      var loaded := LoadedTrips(defaults.entries);
      var selection := LoadedSelection(defaults.entries);
      if selection.None? && loaded != [] {
        selection := Some(loaded[0].id);
      }
      trips := loaded;
      currentTripId := selection;
      isLoadingTrip := false;
      apiError := None;
    }

    /** `currentTrip`: the first trip carrying the selected id. */
    function CurrentTrip(): (r: Option<Trip>)
      reads this
      ensures r.Some? ==> r.value in trips && currentTripId == Some(r.value.id)
      ensures r.Some? ==> TripIndex(trips, currentTripId).Some? && r.value == trips[TripIndex(trips, currentTripId).value]
      ensures r.None? <==> currentTripId.None? || forall t :: t in trips ==> t.id != currentTripId.value
    {
      match TripIndex(trips, currentTripId)
      case None => None
      case Some(i) => Some(trips[i])
    }

    method SaveTrips()
      modifies defaults
      ensures defaults.entries == SavedTrips(old(defaults.entries), trips)
    {
      defaults.entries := SavedTrips(defaults.entries, trips);
    }

    method SaveCurrentTripId()
      modifies defaults
      ensures defaults.entries == SavedSelection(old(defaults.entries), currentTripId)
    {
      defaults.entries := SavedSelection(defaults.entries, currentTripId);
    }

    /** `selectTrip`: the id is stored as given, whether or not a trip carries it. */
    method SelectTrip(id: Uuid)
      modifies this, defaults
      ensures currentTripId == Some(id)
      ensures trips == old(trips) && isLoadingTrip == old(isLoadingTrip) && apiError == old(apiError)
      ensures defaults.entries == SavedSelection(old(defaults.entries), Some(id))
    {
      currentTripId := Some(id);
      SaveCurrentTripId();
    }

    method DeleteTrip(id: Uuid)
      modifies this, defaults
      ensures (trips, currentTripId) == AfterDelete(old(trips), old(currentTripId), id)
      ensures isLoadingTrip == old(isLoadingTrip) && apiError == old(apiError)
      ensures defaults.entries == SavedSelection(SavedTrips(old(defaults.entries), trips), currentTripId)
    {
      trips := Filter(trips, NotTripId(id));
      if currentTripId == Some(id) {
        currentTripId := if trips == [] then None else Some(trips[0].id);
      }
      SaveTrips();
      SaveCurrentTripId();
    }

    /** Flips an item of the selected trip; saves only when an item was found. */
    method ToggleChecklistItem(itemId: Uuid)
      modifies this, defaults
      ensures var r := EditCurrent(old(trips), old(currentTripId), ToggleEdit(itemId));
        && (r.Some? ==> trips == r.value && defaults.entries == SavedTrips(old(defaults.entries), trips))
        && (r.None? ==> trips == old(trips) && defaults.entries == old(defaults.entries))
      ensures currentTripId == old(currentTripId) && isLoadingTrip == old(isLoadingTrip) && apiError == old(apiError)
    {
      var r := EditCurrent(trips, currentTripId, ToggleEdit(itemId));
      if r.Some? {
        trips := r.value;
        SaveTrips();
      }
    }

    /** Removes from the targeted list of the selected trip; saves whenever a
        trip is selected, even if nothing was removed. */
    method RemoveChecklistItem(itemId: Uuid, target: ListTarget)
      modifies this, defaults
      ensures var r := EditCurrent(old(trips), old(currentTripId), RemoveEdit(itemId, target));
        && (r.Some? ==> trips == r.value && defaults.entries == SavedTrips(old(defaults.entries), trips))
        && (r.None? ==> trips == old(trips) && defaults.entries == old(defaults.entries))
      ensures currentTripId == old(currentTripId) && isLoadingTrip == old(isLoadingTrip) && apiError == old(apiError)
    {
      var r := EditCurrent(trips, currentTripId, RemoveEdit(itemId, target));
      if r.Some? {
        trips := r.value;
        SaveTrips();
      }
    }

    /** Appends a new item with a fresh id to the targeted list of the selected
        trip; no id is drawn when no trip is selected. */
    method AddChecklistItem(title: string, notes: Option<string>, target: ListTarget)
      requires Valid()
      modifies this, defaults, ids
      ensures Valid()
      ensures TripIndex(old(trips), old(currentTripId)).None? ==>
        trips == old(trips) && defaults.entries == old(defaults.entries) && ids.issued == old(ids.issued)
      ensures TripIndex(old(trips), old(currentTripId)).Some? ==>
        exists id :: && id !in old(ids.issued) && ids.issued == old(ids.issued) + {id}
                     && Some(trips) == EditCurrent(old(trips), old(currentTripId), AddEdit(NewItem(id, title, notes, target), target))
                     && defaults.entries == SavedTrips(old(defaults.entries), trips)
      ensures currentTripId == old(currentTripId) && isLoadingTrip == old(isLoadingTrip) && apiError == old(apiError)
    {
      if TripIndex(trips, currentTripId).None? {
        return;
      }
      var id := ids.Fresh();
      var r := EditCurrent(trips, currentTripId, AddEdit(NewItem(id, title, notes, target), target));
      trips := r.value;
      SaveTrips();
    }

    /** The synchronous head of `generateTrip`, up to the network call. */
    method BeginGeneration()
      modifies this
      ensures isLoadingTrip && apiError.None?
      ensures trips == old(trips) && currentTripId == old(currentTripId)
    {
      isLoadingTrip := true;
      apiError := None;
    }

    /** The tail of `generateTrip` once the service has answered: a new trip is
        appended, selected and saved; a failure is recorded by its description
        and changes nothing else. Either way loading ends. */
    method CompleteGeneration(outcome: Result<Trip, TripApi.Failure>)
      modifies this, defaults
      ensures !isLoadingTrip
      ensures outcome.Ok? ==>
        && trips == old(trips) + [outcome.value] && currentTripId == Some(outcome.value.id)
        && apiError == old(apiError)
        && defaults.entries == SavedSelection(SavedTrips(old(defaults.entries), trips), currentTripId)
      ensures outcome.Err? ==>
        && trips == old(trips) && currentTripId == old(currentTripId)
        && apiError == Some(TripApi.FailureDescription(outcome.error))
        && defaults.entries == old(defaults.entries)
    {
      isLoadingTrip := false;
      match outcome
      case Ok(t) =>
        trips := trips + [t];
        currentTripId := Some(t.id);
        SaveTrips();
        SaveCurrentTripId();
      case Err(f) =>
        apiError := Some(TripApi.FailureDescription(f));
    }

    /** `generateTrip`, with the service's reply as an input. */
    method GenerateTrip(
      destination: string, startDate: Date, endDate: Date, departureCity: string,
      user: Option<UserProfile>, reply: Completions.Reply, parse: string -> Option<Json.Json>)
      returns (request: TripApi.TripRequest)
      requires Valid()
      modifies this, defaults, ids
      ensures Valid()
      ensures request == TripApi.TripRequest(TripApi.RequesterName(user), departureCity, destination, startDate, endDate)
      ensures !isLoadingTrip
      ensures TripApi.Classify(reply, parse).Ok? ==>
        && |trips| == |old(trips)| + 1 && trips[..|old(trips)|] == old(trips)
        && var t := trips[|old(trips)|];
           && currentTripId == Some(t.id) && apiError.None?
           && TripApi.GeneratedFrom(t, TripApi.Classify(reply, parse).value, startDate, endDate, old(ids.issued))
           && defaults.entries == SavedSelection(SavedTrips(old(defaults.entries), trips), currentTripId)
           && ids.issued == old(ids.issued) + TripApi.IdSet(t)
      ensures TripApi.Classify(reply, parse).Err? ==>
        && trips == old(trips) && currentTripId == old(currentTripId)
        && apiError == Some(TripApi.FailureDescription(TripApi.Classify(reply, parse).error))
        && defaults.entries == old(defaults.entries)
        && ids.issued == old(ids.issued)
    {
      BeginGeneration();
      var outcome;
      request, outcome := TripApi.GenerateTrip(destination, startDate, endDate, departureCity, user, reply, parse, ids);
      CompleteGeneration(outcome);
    }
  }
}
