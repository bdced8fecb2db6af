/** The SUP tab (client/src/components/tabs/SupsTab.tsx): its list of SUP rentals, the
    per-card price figures, its dialog state and the requests its two forms send. */
module SupsTab {
  import opened Wrappers
  import opened Types
  import opened Tabs
  import Pricing

  /** `handleNewRental`: nothing is created without a customer name; otherwise a SUP rental
      for that name whose duration is 30 exactly when the form says '30' and 60 in every
      other case, whose item count defaults to 1 (with no upper bound), with the notes
      defaulting to '' and the payment method to CASH, and with no number of people. */
  function NewRentalRequest(form: FormFields): (dto: Option<CreateRentalDto>)
    ensures dto.Some? <==> !IsBlank(form.customerName)
    ensures dto.Some? ==>
      var d := dto.value;
      && d.rentalType == SUP
      && Some(d.customerName) == form.customerName
      && (d.duration == Some(30) || d.duration == Some(60))
      && (d.duration == Some(30) <==> form.duration == Some("30"))
      && d.numItems.Some? && d.numItems.value != 0
      && (d.numItems.value == 1 || form.numItems == Finite(d.numItems.value))
      && (form.numItems.Finite? && form.numItems.value != 0 ==> d.numItems.value == form.numItems.value)
      && d.notes.Some? && (d.notes.value == "" <==> IsBlank(form.notes))
      && (d.notes.value == "" || form.notes == d.notes)
      && d.paymentMethod == (if form.paymentMethod.Some? then form.paymentMethod.value else CASH)
      && d.numPeople.None?
  {
    if IsBlank(form.customerName) then None
    else
      var duration := if form.duration == Some("30") then 30 else 60;
      Some(CreateRentalDto(
        rentalType := SUP,
        numPeople := None,
        customerName := form.customerName.value,
        notes := Some(OptStrOr(form.notes, "")),
        paymentMethod := if form.paymentMethod.Some? then form.paymentMethod.value else CASH,
        duration := Some(duration),
        numItems := Some(JsNumberOr(form.numItems, 1))))
  }

  /** A SUP created from this tab is priced per unit at 60 when its form asked for half an
      hour and at 100 otherwise. */
  lemma CreatedUnitPrice(form: FormFields)
    requires NewRentalRequest(form).Some?
    ensures Pricing.SupUnitPrice(NewRentalRequest(form).value.duration)
            == if form.duration == Some("30") then 60 else 100
  {
  }

  /** The figures a SUP card shows: item count, unit price and price. */
  datatype CardFigures = CardFigures(items: int, unitPrice: int, price: int)

  function CardFiguresOf(r: Rental): (f: CardFigures)
    ensures r.numItems.Some? && r.numItems.value != 0 ==> f.items == r.numItems.value
    ensures r.numItems.None? || r.numItems == Some(0) ==> f.items == 1
    ensures f.unitPrice == if r.duration == Some(30) then 60 else 100
    ensures r.finalPrice.Some? && r.finalPrice.value != 0 ==> f.price == r.finalPrice.value
    ensures r.finalPrice.None? || r.finalPrice == Some(0) ==> f.price == r.basePrice
  {
    CardFigures(Pricing.ItemsShown(r), Pricing.SupUnitPrice(r.duration), Pricing.ShownPrice(r))
  }

  /** The tab's React state. */
  class SupsTabState {
    var selectedRental: Option<Rental>
    var isEditDialogOpen: bool
    var isNewRentalDialogOpen: bool
    var filter: FilterType

    /** The tab never opens its own new-rental dialog: no handler sets the flag to true. */
    ghost predicate Valid()
      reads this
    {
      !isNewRentalDialogOpen
    }

    constructor ()
      ensures Valid()
      ensures selectedRental == None && !isEditDialogOpen && filter == Active
    {
      selectedRental := None;
      isEditDialogOpen := false;
      isNewRentalDialogOpen := false;
      filter := Active;
    }

    /** `filteredRentals`: the SUP rentals of the chosen view. */
    function FilteredRentals(rentals: seq<Rental>): (r: seq<Rental>)
      reads this
      ensures forall x :: x in r ==> x.rentalType == SUP && (x.IsActive() <==> filter == Active)
      ensures forall x :: x in rentals && x.rentalType == SUP && (x.IsActive() <==> filter == Active) ==> x in r
    {
      TabRentals(rentals, SUP, filter)
    }

    /** The toggle's `value && setFilter(value)`: deselecting the current button changes nothing. */
    method SetFilter(value: Option<FilterType>)
      requires Valid()
      modifies this
      ensures Valid()
      ensures filter == if value.Some? then value.value else old(filter)
      ensures selectedRental == old(selectedRental) && isEditDialogOpen == old(isEditDialogOpen)
    {
      if value.Some? {
        filter := value.value;
      }
    }

    /** The Edit button of an active card. */
    method StartEdit(r: Rental)
      requires Valid() && OffersActions(r)
      modifies this
      ensures Valid()
      ensures selectedRental == Some(r) && isEditDialogOpen && filter == old(filter)
    {
      selectedRental := Some(r);
      isEditDialogOpen := true;
    }

    /** Cancel, or closing the edit dialog. */
    method CloseEditDialog()
      requires Valid()
      modifies this
      ensures Valid()
      ensures !isEditDialogOpen
      ensures selectedRental == old(selectedRental) && filter == old(filter)
    {
      isEditDialogOpen := false;
    }

    /** Submitting the new-rental form: the request, if any, and the dialog closes after it. */
    method SubmitNewRental(form: FormFields) returns (request: Option<CreateRentalDto>)
      requires Valid()
      modifies this
      ensures Valid()
      ensures request == NewRentalRequest(form)
      ensures selectedRental == old(selectedRental) && isEditDialogOpen == old(isEditDialogOpen)
      ensures filter == old(filter)
    {
      request := NewRentalRequest(form);
      if request.Some? {
        isNewRentalDialogOpen := false;
      }
    }

    /** Submitting the edit form: the request, if any; the edit dialog closes once it is sent
        and stays open when nothing was sent. */
    method SubmitUpdate(form: FormFields) returns (request: Option<UpdateRequest>)
      requires Valid()
      modifies this
      ensures Valid()
      ensures request == UpdateFromEditForm(old(selectedRental), form)
      ensures isEditDialogOpen == (old(isEditDialogOpen) && request.None?)
      ensures selectedRental == old(selectedRental) && filter == old(filter)
    {
      request := UpdateFromEditForm(selectedRental, form);
      if request.Some? {
        isEditDialogOpen := false;
      }
    }
  }
}
