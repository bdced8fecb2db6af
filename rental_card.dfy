/** A rental card (client/src/components/RentalCard.tsx), over the older rental record of
    shared/types/index.ts: the price, name and payment icon it shows, and its edit dialog,
    whose fields start from the rental and are all sent back on save. */
module RentalCard {
  import opened Wrappers
  import opened Types
  import opened LegacyTypes
  import opened Text

  /** The shekel sign the price string starts with. */
  const Shekel := '₪'

  /** `getPriceDisplay()`: a non-zero final price alone; otherwise the base price, followed by
      " (-discount)" when the discount is non-zero. */
  function PriceDisplay(r: LegacyRental): (s: string)
    ensures 2 <= |s| && s[0] == Shekel
    ensures ' ' in s <==> (r.finalPrice.None? || r.finalPrice == Some(0)) && r.discount != 0
  {
    if r.finalPrice.Some? && r.finalPrice.value != 0 then
      NoSpace(IntToString(r.finalPrice.value));
      [Shekel] + IntToString(r.finalPrice.value)
    else
      var base := IntToString(r.basePrice);
      NoSpace(base);
      if r.discount != 0 then
        assert (([Shekel] + base) + " (-" + IntToString(r.discount) + ")")[|base| + 1] == ' ';
        [Shekel] + base + " (-" + IntToString(r.discount) + ")"
      else [Shekel] + base
  }

  lemma NoSpace(s: string)
    requires IsIntText(s)
    ensures ' ' !in s
  {
  }

  /** The figures a price string shows: the amount and the discount after it (0 when none). */
  datatype PriceFigures = PriceFigures(amount: int, discount: int)

  /** What the card means to show: the final price without a discount once it is set and
      non-zero, the base price with its discount before that. */
  function ShownFigures(r: LegacyRental): PriceFigures {
    if r.finalPrice.Some? && r.finalPrice.value != 0 then PriceFigures(r.finalPrice.value, 0)
    else PriceFigures(r.basePrice, r.discount)
  }

  /** The index of the first space in `s`, or `|s|` when there is none. */
  function FirstSpace(s: string): (k: nat)
    ensures k <= |s|
    ensures forall i :: 0 <= i < k ==> s[i] != ' '
    ensures k < |s| ==> s[k] == ' '
  {
    if s == [] || s[0] == ' ' then 0 else 1 + FirstSpace(s[1..])
  }

  /** Reads a price string back: the shekel sign, an integer, and optionally " (-", an
      integer and ")". */
  function ParsePriceDisplay(s: string): Option<PriceFigures> {
    if |s| == 0 || s[0] != Shekel then None
    else
      var rest := s[1..];
      var k := FirstSpace(rest);
      if !IsIntText(rest[..k]) then None
      else if k == |rest| then Some(PriceFigures(ParseInt(rest), 0))
      else
        var tail := rest[k..];
        if 5 <= |tail| && tail[..3] == " (-" && tail[|tail| - 1] == ')' && IsIntText(tail[3..|tail| - 1])
        then Some(PriceFigures(ParseInt(rest[..k]), ParseInt(tail[3..|tail| - 1])))
        else None
  }

  lemma FirstSpaceAt(a: string, t: string)
    requires ' ' !in a
    requires t == [] || t[0] == ' '
    ensures FirstSpace(a + t) == |a|
  {
    if t != [] {
      assert (a + t)[|a|] == ' ';
      FirstSpaceMinimal(a + t, |a|);
    }
  }

  lemma FirstSpaceMinimal(s: string, j: int)
    requires 0 <= j < |s| && s[j] == ' '
    ensures FirstSpace(s) <= j
  {
  }

  /** A price string without a discount reads back as its amount. */
  lemma ParsePlain(a: string)
    requires IsIntText(a)
    ensures ParsePriceDisplay([Shekel] + a) == Some(PriceFigures(ParseInt(a), 0))
  {
    var s := [Shekel] + a;
    assert s[1..] == a + [];
    NoSpace(a);
    FirstSpaceAt(a, []);
    assert s[1..][..|a|] == a;
  }

  /** A price string with a discount suffix reads back as its amount and its discount. */
  lemma ParseWithDiscount(a: string, d: string)
    requires IsIntText(a) && IsIntText(d)
    ensures ParsePriceDisplay([Shekel] + a + " (-" + d + ")") == Some(PriceFigures(ParseInt(a), ParseInt(d)))
  {
    var tail := " (-" + d + ")";
    var s := [Shekel] + a + " (-" + d + ")";
    assert s[1..] == a + tail;
    NoSpace(a);
    FirstSpaceAt(a, tail);
    assert (a + tail)[..|a|] == a;
    assert (a + tail)[|a|..] == tail;
    assert tail[..3] == " (-";
    assert tail[3..|tail| - 1] == d;
  }

  /** The price string reads back as exactly the figures the card means to show: the
      discount suffix appears only for a non-zero discount before the final price is set. */
  lemma PriceDisplayRoundTrip(r: LegacyRental)
    ensures ParsePriceDisplay(PriceDisplay(r)) == Some(ShownFigures(r))
  {
    var figures := ShownFigures(r);
    ParseIntToString(figures.amount);
    if figures.discount == 0 || (r.finalPrice.Some? && r.finalPrice.value != 0) {
      ParsePlain(IntToString(figures.amount));
    } else {
      ParseIntToString(r.discount);
      ParseWithDiscount(IntToString(r.basePrice), IntToString(r.discount));
    }
  }

  /** `rental.customerName || 'לקוח חדש'`: a nameless rental shows the placeholder. */
  const Placeholder := "לקוח חדש"

  function DisplayName(r: LegacyRental): (name: string)
    ensures name != ""
    ensures name == r.customerName <==> r.customerName != ""
    ensures r.customerName == "" ==> name == Placeholder
  {
    if r.customerName != "" then r.customerName else Placeholder
  }

  datatype Icon = Money | CreditCard

  /** The icon beside the name: money for a cash rental, a credit card otherwise. */
  function PaymentIcon(r: LegacyRental): (icon: Icon)
    ensures icon == Money <==> r.paymentMethod == CASH
  {
    if r.paymentMethod == CASH then Money else CreditCard
  }

  /** The number-of-people line, `{rental.numPeople && (<line>)}`, as React renders it: a
      falsy number is rendered as itself, so a zero count shows a bare "0". */
  function PeopleLineAsWritten(r: LegacyRental): (line: string)
    ensures line != ""
    ensures r.numPeople != 0 ==> line == "מספר אנשים: " + IntToString(r.numPeople)
  {
    if r.numPeople != 0 then "מספר אנשים: " + IntToString(r.numPeople) else IntToString(r.numPeople)
  }

  /** A rental with no people shows a stray "0" on its card. */
  lemma PeopleLineShowsZero(r: LegacyRental)
    requires r.numPeople == 0
    ensures PeopleLineAsWritten(r) == "0"
  {
  }

  /** The evidently intended line: the count when there is one, nothing otherwise. */
  function PeopleLine(r: LegacyRental): (line: string)
    ensures line == "" <==> r.numPeople == 0
    ensures line != "" ==> line == "מספר אנשים: " + IntToString(r.numPeople)
  {
    if r.numPeople != 0 then "מספר אנשים: " + IntToString(r.numPeople) else ""
  }

  /** The two agree on every rental with a non-zero count. */
  lemma PeopleLineAgrees(r: LegacyRental)
    ensures PeopleLine(r) == PeopleLineAsWritten(r) <==> r.numPeople != 0
  {
    if r.numPeople == 0 {
      assert PeopleLineAsWritten(r) == "0";
    }
  }

  /** The four fields of the edit dialog, which `handleUpdate` sends as they are. */
  datatype EditFields = EditFields(
    customerName: string,
    notes: string,
    discount: int,
    paymentMethod: PaymentMethod)

  /** The dialog's initial fields: the rental's name, its notes or '', its discount or 0 and
      its payment method. */
  function InitialEdit(r: LegacyRental): (e: EditFields)
    ensures e.customerName == r.customerName
    ensures e.notes == "" <==> IsBlank(r.notes)
    ensures e.notes != "" ==> r.notes == Some(e.notes)
    ensures e.discount == r.discount
    ensures e.paymentMethod == r.paymentMethod
  {
    EditFields(r.customerName, OptStrOr(r.notes, ""), NumOr(r.discount, 0), r.paymentMethod)
  }

  /** The card's edit dialog state. The initial values are taken from the rental the card
      was first rendered with. */
  class CardEditor {
    const rental: LegacyRental
    var isEditDialogOpen: bool
    var fields: EditFields

    constructor (r: LegacyRental)
      ensures rental == r && !isEditDialogOpen && fields == InitialEdit(r)
    {
      rental := r;
      isEditDialogOpen := false;
      fields := InitialEdit(r);
    }

    /** The edit button. */
    method OpenEdit()
      modifies this
      ensures isEditDialogOpen && fields == old(fields)
    {
      isEditDialogOpen := true;
    }

    /** Cancel, or a click outside the dialog: it closes and keeps the edited fields. */
    method CancelEdit()
      modifies this
      ensures !isEditDialogOpen && fields == old(fields)
    {
      isEditDialogOpen := false;
    }

    method SetCustomerName(name: string)
      modifies this
      ensures isEditDialogOpen == old(isEditDialogOpen) && fields == old(fields).(customerName := name)
    {
      fields := fields.(customerName := name);
    }

    method SetNotes(notes: string)
      modifies this
      ensures isEditDialogOpen == old(isEditDialogOpen) && fields == old(fields).(notes := notes)
    {
      fields := fields.(notes := notes);
    }

    method SetDiscount(discount: int)
      modifies this
      ensures isEditDialogOpen == old(isEditDialogOpen) && fields == old(fields).(discount := discount)
    {
      fields := fields.(discount := discount);
    }

    /** The exclusive toggle group: clicking the selected button again yields no value, and
        then the payment method is left as it was. */
    method SetPaymentMethod(choice: Option<PaymentMethod>)
      modifies this
      ensures isEditDialogOpen == old(isEditDialogOpen)
      ensures choice.Some? ==> fields == old(fields).(paymentMethod := choice.value)
      ensures choice.None? ==> fields == old(fields)
    {
      if choice.Some? {
        fields := fields.(paymentMethod := choice.value);
      }
    }

    /** `handleUpdate`: all four fields, an empty name included, go to the card's rental
        and the dialog closes. */
    method HandleUpdate() returns (id: int, patch: EditFields)
      modifies this
      ensures id == rental.id && patch == old(fields)
      ensures !isEditDialogOpen && fields == old(fields)
    {
      id, patch := rental.id, fields;
      isEditDialogOpen := false;
    }
  }

  /** Saving without editing sends back the rental's own name, discount and payment method,
      and its notes with a missing note turned into ''. */
  method SaveUnedited(r: LegacyRental) returns (id: int, patch: EditFields)
    ensures id == r.id
    ensures patch.customerName == r.customerName && patch.discount == r.discount
    ensures patch.paymentMethod == r.paymentMethod
    ensures patch.notes == OptStrOr(r.notes, "")
  {
    var card := new CardEditor(r);
    card.OpenEdit();
    id, patch := card.HandleUpdate();
  }
}
