/** What the beds tab and the SUP tab share: the same list filter, the same edit-form
    handler and the same rule for which cards offer actions. Both components carry their own
    copy of this code (client/src/components/tabs/BedsTab.tsx, client/src/components/tabs/SupsTab.tsx);
    it is modelled once here. */
module Tabs {
  import opened Wrappers
  import opened Types
  import opened Filtering
  import UseRentals

  /** The toggle between rentals in progress and ended ones. */
  datatype FilterType = Active | Completed

  /** The named fields a tab's form submits, as `FormData.get(...)` returns them: a missing
      text field is None, a number field is what `Number(...)` makes of it, and
      `paymentMethod` is None when the field is missing or empty. */
  datatype FormFields = FormFields(
    customerName: Option<string>,
    notes: Option<string>,
    paymentMethod: Option<PaymentMethod>,
    numPeople: JsNumber,
    numItems: JsNumber,
    discount: JsNumber,
    duration: Option<string>)

  /** The `filteredRentals` callback for a tab showing rentals of type `t`. */
  predicate Keeps(t: RentalType, filter: FilterType, x: Rental) {
    x.rentalType == t &&
    match filter
    case Active => x.IsActive()
    case Completed => !x.IsActive()
  }

  /** `rentals.filter(...)` in a tab: rentals of type `t`, then the active or the ended ones. */
  function TabRentals(rentals: seq<Rental>, t: RentalType, filter: FilterType): (r: seq<Rental>)
    ensures forall x :: x in r ==> x.rentalType == t && (x.IsActive() <==> filter == Active)
    ensures forall x :: x in rentals && x.rentalType == t && (x.IsActive() <==> filter == Active) ==> x in r
    ensures IsSubsequence(r, rentals)
  {
    var keep := (x: Rental) => Keeps(t, filter, x);
    FilterIsSubsequence(rentals, keep);
    Filter(rentals, keep)
  }

  /** The active and the ended view of a tab split its type's rentals between them:
      each rental of type `t` is in exactly one of the two, as often as in the input. */
  lemma ViewsPartition(rentals: seq<Rental>, t: RentalType)
    ensures multiset(TabRentals(rentals, t, Active)) + multiset(TabRentals(rentals, t, Completed))
            == multiset(Filter(rentals, (x: Rental) => x.rentalType == t))
    ensures |TabRentals(rentals, t, Active)| + |TabRentals(rentals, t, Completed)|
            == |Filter(rentals, (x: Rental) => x.rentalType == t)|
    ensures forall x :: x in TabRentals(rentals, t, Active) ==> x !in TabRentals(rentals, t, Completed)
  {
    FilterSplit(rentals, (x: Rental) => x.rentalType == t,
                (x: Rental) => Keeps(t, Active, x), (x: Rental) => Keeps(t, Completed, x));
  }

  /** A tab's active view lists what the hook's `getActiveRentalsByType` lists. */
  lemma ActiveViewIsActiveByType(rentals: seq<Rental>, t: RentalType)
    ensures TabRentals(rentals, t, Active) == UseRentals.ActiveRentalsByType(rentals, t)
  {
    FilterSameKeep(rentals, (x: Rental) => Keeps(t, Active, x),
                   (x: Rental) => x.rentalType == t && x.IsActive());
  }

  /** A card offers the Edit and End buttons, and a timer, only while the rental has not ended. */
  predicate OffersActions(r: Rental) {
    r.IsActive()
  }

  /** Every card of the active view offers actions; no card of the ended view does. */
  lemma ActionsFollowView(rentals: seq<Rental>, t: RentalType)
    ensures forall x :: x in TabRentals(rentals, t, Active) ==> OffersActions(x)
    ensures forall x :: x in TabRentals(rentals, t, Completed) ==> !OffersActions(x)
  {
  }

  /** `handleUpdateRental`: nothing is sent without a selected rental or with an empty name;
      otherwise the four editable fields are sent for the selected rental's id, with the
      notes defaulting to '', the discount to 0 and the payment method to the rental's own. */
  function UpdateFromEditForm(selected: Option<Rental>, form: FormFields): (req: Option<UpdateRequest>)
    ensures req.Some? <==> selected.Some? && !IsBlank(form.customerName)
    ensures req.Some? ==>
      var d := req.value.data;
      && req.value.id == selected.value.id
      && d.customerName == form.customerName
      && d.notes.Some? && (d.notes.value == "" <==> IsBlank(form.notes))
      && (d.notes.value == "" || form.notes == d.notes)
      && d.discount.Some? && (d.discount.value == 0 <==> !(form.discount.Finite? && form.discount.value != 0))
      && (d.discount.value == 0 || form.discount == Finite(d.discount.value))
      && d.paymentMethod == Some(if form.paymentMethod.Some? then form.paymentMethod.value
                                 else selected.value.paymentMethod)
      && d.endTime.None? && d.finalPrice.None? && d.duration.None? && d.numItems.None?
  {
    if selected.None? || IsBlank(form.customerName) then None
    else
      var rental := selected.value;
      Some(UpdateRequest(rental.id, UpdateRentalDto(
        customerName := form.customerName,
        notes := Some(OptStrOr(form.notes, "")),
        discount := Some(JsNumberOr(form.discount, 0)),
        paymentMethod := Some(if form.paymentMethod.Some? then form.paymentMethod.value
                              else rental.paymentMethod),
        endTime := None, finalPrice := None, duration := None, numItems := None)))
  }

  /** The End button's `rental.id && endRental.mutate(rental.id)`: a rental whose id is 0
      cannot be ended from its card. */
  function EndRequest(r: Rental): (id: Option<int>)
    ensures id.Some? <==> r.id != 0
    ensures id.Some? ==> id.value == r.id
  {
    if r.id != 0 then Some(r.id) else None
  }
}
