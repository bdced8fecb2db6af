/** The beds tab (client/src/components/tabs/BedsTab.tsx): its list of bed rentals, its
    dialog state and the requests its two forms send. */
module BedsTab {
  import opened Wrappers
  import opened Types
  import opened Tabs

  /** `handleNewRental`: nothing is created without a customer name; otherwise a BED rental
      for that name, with the number of people defaulting to 1, the notes to '' and the
      payment method to CASH, and with no duration or item count. */
  function NewRentalRequest(form: FormFields): (dto: Option<CreateRentalDto>)
    ensures dto.Some? <==> !IsBlank(form.customerName)
    ensures dto.Some? ==>
      var d := dto.value;
      && d.rentalType == BED
      && Some(d.customerName) == form.customerName
      && d.numPeople.Some? && d.numPeople.value != 0
      && (d.numPeople.value == 1 || form.numPeople == Finite(d.numPeople.value))
      && (form.numPeople.Finite? && form.numPeople.value != 0 ==> d.numPeople.value == form.numPeople.value)
      && d.notes.Some? && (d.notes.value == "" <==> IsBlank(form.notes))
      && (d.notes.value == "" || form.notes == d.notes)
      && d.paymentMethod == (if form.paymentMethod.Some? then form.paymentMethod.value else CASH)
      && d.duration.None? && d.numItems.None?
  {
    if IsBlank(form.customerName) then None
    else
      Some(CreateRentalDto(
        rentalType := BED,
        numPeople := Some(JsNumberOr(form.numPeople, 1)),
        customerName := form.customerName.value,
        notes := Some(OptStrOr(form.notes, "")),
        paymentMethod := if form.paymentMethod.Some? then form.paymentMethod.value else CASH,
        duration := None,
        numItems := None))
  }

  /** The tab's React state. */
  class BedsTabState {
    var selectedRental: Option<Rental>
    var isEditDialogOpen: bool
    var isNewRentalDialogOpen: bool
    var filter: FilterType

    /** The tab never opens its own new-rental dialog: no handler sets the flag to true. */
    ghost predicate Valid()
      reads this
    {
      !isNewRentalDialogOpen
    }

    constructor ()
      ensures Valid()
      ensures selectedRental == None && !isEditDialogOpen && filter == Active
    {
      selectedRental := None;
      isEditDialogOpen := false;
      isNewRentalDialogOpen := false;
      filter := Active;
    }

    /** `filteredRentals`: the bed rentals of the chosen view. */
    function FilteredRentals(rentals: seq<Rental>): (r: seq<Rental>)
      reads this
      ensures forall x :: x in r ==> x.rentalType == BED && (x.IsActive() <==> filter == Active)
      ensures forall x :: x in rentals && x.rentalType == BED && (x.IsActive() <==> filter == Active) ==> x in r
    {
      TabRentals(rentals, BED, filter)
    }

    /** The toggle's `value && setFilter(value)`: deselecting the current button changes nothing. */
    method SetFilter(value: Option<FilterType>)
      requires Valid()
      modifies this
      ensures Valid()
      ensures filter == if value.Some? then value.value else old(filter)
      ensures selectedRental == old(selectedRental) && isEditDialogOpen == old(isEditDialogOpen)
    {
      if value.Some? {
        filter := value.value;
      }
    }

    /** The Edit button of an active card. */
    method StartEdit(r: Rental)
      requires Valid() && OffersActions(r)
      modifies this
      ensures Valid()
      ensures selectedRental == Some(r) && isEditDialogOpen && filter == old(filter)
    {
      selectedRental := Some(r);
      isEditDialogOpen := true;
    }

    /** Cancel, or closing the edit dialog. */
    method CloseEditDialog()
      requires Valid()
      modifies this
      ensures Valid()
      ensures !isEditDialogOpen
      ensures selectedRental == old(selectedRental) && filter == old(filter)
    {
      isEditDialogOpen := false;
    }

    /** Submitting the new-rental form: the request, if any, and the dialog closes after it. */
    method SubmitNewRental(form: FormFields) returns (request: Option<CreateRentalDto>)
      requires Valid()
      modifies this
      ensures Valid()
      ensures request == NewRentalRequest(form)
      ensures selectedRental == old(selectedRental) && isEditDialogOpen == old(isEditDialogOpen)
      ensures filter == old(filter)
    {
      request := NewRentalRequest(form);
      if request.Some? {
        isNewRentalDialogOpen := false;
      }
    }

    /** Submitting the edit form: the request, if any; unlike the SUP tab, the edit dialog
        stays open afterwards. */
    method SubmitUpdate(form: FormFields) returns (request: Option<UpdateRequest>)
      requires Valid()
      ensures request == UpdateFromEditForm(selectedRental, form)
    {
      request := UpdateFromEditForm(selectedRental, form);
    }
  }
}
