/** Views/MyTripView.swift without its layout: which list each section's
    buttons address, the add sheet's guard, and the auto-selection on appear. */
module MyTrip {
  import opened Basics
  import opened Models
  import opened Trips

  /** What the add sheet's confirm button passes on: nothing when the title is
      blank after trimming; otherwise the title as typed (untrimmed) and the
      notes, with empty notes passed as nil. */
  function AddSheetSubmission(title: string, notes: string): (r: Option<(string, Option<string>)>)
    ensures r.None? <==> AllWhitespace(title)
    ensures r.Some? ==> r.value.0 == title
    ensures r.Some? ==> (r.value.1.None? <==> notes == "")
    ensures r.Some? && notes != "" ==> r.value.1 == Some(notes)
  {
    TrimEmptyIff(title);
    if Trim(title) == "" then None
    else Some((title, if notes == "" then None else Some(notes)))
  }

  class MyTripView {
    var showAddChecklist: bool
    var addTarget: ListTarget
    const tripVM: TripViewModel

    constructor (tripVM: TripViewModel)
      ensures this.tripVM == tripVM && !showAddChecklist && addTarget == Checklist
    {
      this.tripVM := tripVM;
      showAddChecklist := false;
      addTarget := Checklist;
    }

    /** `onAppear`: with no selection and at least one trip, the first trip is
        selected (and the selection saved); otherwise nothing happens. */
    method OnAppear()
      modifies tripVM, tripVM.defaults
      ensures tripVM.trips == old(tripVM.trips)
      ensures tripVM.isLoadingTrip == old(tripVM.isLoadingTrip) && tripVM.apiError == old(tripVM.apiError)
      ensures old(tripVM.currentTripId).None? && old(tripVM.trips) != [] ==>
        && tripVM.currentTripId == Some(old(tripVM.trips)[0].id)
        && tripVM.defaults.entries == SavedSelection(old(tripVM.defaults.entries), tripVM.currentTripId)
      ensures old(tripVM.currentTripId).Some? || old(tripVM.trips) == [] ==>
        tripVM.currentTripId == old(tripVM.currentTripId) && tripVM.defaults.entries == old(tripVM.defaults.entries)
    {
      if tripVM.currentTripId.None? && tripVM.trips != [] {
        tripVM.SelectTrip(tripVM.trips[0].id);
      }
    }

    /** A section's "+" button: remembers the section's list and opens the sheet. */
    method AddTap(section: ListTarget)
      modifies this
      ensures addTarget == section && showAddChecklist
    {
      addTarget := section;
      showAddChecklist := true;
    }

    /** A section's delete button removes from that section's own list. */
    method DeleteInSection(section: ListTarget, itemId: Uuid)
      modifies tripVM, tripVM.defaults
      ensures var r := EditCurrent(old(tripVM.trips), old(tripVM.currentTripId), RemoveEdit(itemId, section));
        && (r.Some? ==> tripVM.trips == r.value && tripVM.defaults.entries == SavedTrips(old(tripVM.defaults.entries), tripVM.trips))
        && (r.None? ==> tripVM.trips == old(tripVM.trips) && tripVM.defaults.entries == old(tripVM.defaults.entries))
      ensures tripVM.currentTripId == old(tripVM.currentTripId)
      ensures tripVM.isLoadingTrip == old(tripVM.isLoadingTrip) && tripVM.apiError == old(tripVM.apiError)
    {
      tripVM.RemoveChecklistItem(itemId, section);
    }

    /** A section's toggle: the same call from either section, so an id found in
        the checklist is toggled there even when tapped in the must-see list. */
    method ToggleInSection(section: ListTarget, itemId: Uuid)
      modifies tripVM, tripVM.defaults
      ensures var r := EditCurrent(old(tripVM.trips), old(tripVM.currentTripId), ToggleEdit(itemId));
        && (r.Some? ==> tripVM.trips == r.value && tripVM.defaults.entries == SavedTrips(old(tripVM.defaults.entries), tripVM.trips))
        && (r.None? ==> tripVM.trips == old(tripVM.trips) && tripVM.defaults.entries == old(tripVM.defaults.entries))
      ensures tripVM.currentTripId == old(tripVM.currentTripId)
      ensures tripVM.isLoadingTrip == old(tripVM.isLoadingTrip) && tripVM.apiError == old(tripVM.apiError)
    {
      tripVM.ToggleChecklistItem(itemId);
    }

    /** The sheet's confirm button: a blank title keeps the sheet open and
        changes nothing; otherwise the item goes to the list the sheet was
        opened for, and the sheet closes. */
    method ConfirmAdd(title: string, notes: string)
      requires tripVM.Valid()
      modifies this, tripVM, tripVM.defaults, tripVM.ids
      ensures tripVM.Valid()
      ensures addTarget == old(addTarget)
      ensures tripVM.currentTripId == old(tripVM.currentTripId)
      ensures tripVM.isLoadingTrip == old(tripVM.isLoadingTrip) && tripVM.apiError == old(tripVM.apiError)
      ensures AllWhitespace(title) ==>
        && showAddChecklist == old(showAddChecklist) && tripVM.trips == old(tripVM.trips)
        && tripVM.defaults.entries == old(tripVM.defaults.entries) && tripVM.ids.issued == old(tripVM.ids.issued)
      ensures !AllWhitespace(title) ==>
        && !showAddChecklist
        && var notesOut := if notes == "" then None else Some(notes);
           && (TripIndex(old(tripVM.trips), old(tripVM.currentTripId)).None? ==>
                 && tripVM.trips == old(tripVM.trips) && tripVM.defaults.entries == old(tripVM.defaults.entries)
                 && tripVM.ids.issued == old(tripVM.ids.issued))
           && (TripIndex(old(tripVM.trips), old(tripVM.currentTripId)).Some? ==>
                 exists id :: && id !in old(tripVM.ids.issued) && tripVM.ids.issued == old(tripVM.ids.issued) + {id}
                              && Some(tripVM.trips) == EditCurrent(old(tripVM.trips), old(tripVM.currentTripId),
                                                                   AddEdit(NewItem(id, title, notesOut, old(addTarget)), old(addTarget)))
                              && tripVM.defaults.entries == SavedTrips(old(tripVM.defaults.entries), tripVM.trips))
    {
      match AddSheetSubmission(title, notes)
      case None =>
      case Some(submission) =>
        tripVM.AddChecklistItem(submission.0, submission.1, addTarget);
        showAddChecklist := false;
    }
  }
}
