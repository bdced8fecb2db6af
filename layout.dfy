/** The page layout's new-rental wizard (client/src/components/Layout/index.tsx): a dialog
    with three stages (category, rental details, payment), the form it fills in, and the
    create request it sends from the last stage. The clock, the summary panel and the
    tab switcher it also renders are modelled elsewhere or not at all. */
module Layout {
  import opened Wrappers
  import opened Types
  import Pricing
  import Text

  /** `STAGES`: the titles of the wizard's three steps. */
  const Stages: seq<string> := ["בחירת קטגוריה", "פרטי השכרה", "תשלום"]

  /** The index of the payment step, where Next becomes the finish button. */
  const LastStep := |Stages| - 1

  /** `initialFormData`: no category yet, one person, no name or notes, cash, no discount
      or extra time, an hour's duration and one item. */
  const InitialFormData := RentalFormData(
    rentalType := None,
    numPeople := 1,
    customerName := "",
    notes := "",
    paymentMethod := CASH,
    discount := 0,
    extraTime := 0,
    duration := Some(60),
    numItems := Some(1))

  /** An entry of `DURATION_OPTIONS`: a duration in minutes and the label the select shows. */
  datatype DurationOption = DurationOption(value: int, text: string)

  const DurationOptions: seq<DurationOption> := [
    DurationOption(30, "חצי שעה - ₪60"),
    DurationOption(60, "שעה - ₪100")
  ]

  /** Every duration the select offers is labelled with the unit price a SUP of that
      duration is shown at, and the select offers exactly half an hour and an hour. */
  lemma DurationOptionsPriced()
    ensures forall o :: o in DurationOptions ==> o.value == 30 || o.value == 60
    ensures forall o :: o in DurationOptions ==>
      exists name :: o.text == name + " - ₪" + Text.NatToString(Pricing.SupUnitPrice(Some(o.value)))
  {
    var half, hour := DurationOptions[0], DurationOptions[1];
    assert Text.NatToString(60) == "60" by {
      assert Text.NatToString(6) == "6";
    }
    assert Text.NatToString(100) == "100" by {
      assert Text.NatToString(1) == "1";
      assert Text.NatToString(10) == "10";
    }
    assert half.text == "חצי שעה" + " - ₪" + Text.NatToString(Pricing.SupUnitPrice(Some(half.value)));
    assert hour.text == "שעה" + " - ₪" + Text.NatToString(Pricing.SupUnitPrice(Some(hour.value)));
  }

  /** `handleSubmit`'s request: nothing without a category or a customer name; otherwise the
      form's category, people, name, notes and payment method, with the duration and the item
      count only for a SUP. The discount and the extra time the form holds are not sent. */
  function SubmitRequest(form: RentalFormData): (dto: Option<CreateRentalDto>)
    ensures dto.Some? <==> form.rentalType.Some? && form.customerName != ""
    ensures dto.Some? ==>
      && Some(dto.value.rentalType) == form.rentalType
      && dto.value.customerName == form.customerName
      && dto.value.numPeople == Some(form.numPeople)
      && dto.value.notes == Some(form.notes)
      && dto.value.paymentMethod == form.paymentMethod
    ensures dto.Some? && dto.value.rentalType == SUP ==>
      dto.value.duration == form.duration && dto.value.numItems == form.numItems
    ensures dto.Some? && dto.value.rentalType != SUP ==>
      dto.value.duration.None? && dto.value.numItems.None?
  {
    if form.rentalType.None? || form.customerName == "" then None
    else
      var isSup := form.rentalType.value == SUP;
      Some(CreateRentalDto(
        rentalType := form.rentalType.value,
        numPeople := Some(form.numPeople),
        customerName := form.customerName,
        notes := Some(form.notes),
        paymentMethod := form.paymentMethod,
        duration := if isSup then form.duration else None,
        numItems := if isSup then form.numItems else None))
  }

  /** The Next button's `disabled` condition. Its third clause, a missing payment method at
      the last step, can never hold: the form always carries CASH or CREDIT. Once a category
      is chosen, Next on the details step is disabled exactly when the form could not be
      submitted. */
  predicate NextDisabled(step: int, form: RentalFormData)
    ensures NextDisabled(step, form) ==> 0 <= step < LastStep
    ensures step == 0 ==> (NextDisabled(step, form) <==> form.rentalType.None?)
    ensures step == 1 && form.rentalType.Some? ==> (NextDisabled(step, form) <==> SubmitRequest(form).None?)
  {
    || (step == 0 && form.rentalType.None?)
    || (step == 1 && form.customerName == "")
  }

  /** What the wizard's state keeps true between events: the step is one of the three, a
      category is chosen past the first step, the last step is reached only with a name,
      and the duration is one the select offers. */
  predicate StepInvariant(step: int, form: RentalFormData) {
    && 0 <= step <= LastStep
    && (step >= 1 ==> form.rentalType.Some?)
    && (step == LastStep ==> form.customerName != "")
    && (form.duration == Some(30) || form.duration == Some(60))
  }

  /** Next is always enabled on the payment step, and whenever Next is enabled the step it
      leads to (or, from the last step, the submit) keeps the invariant. */
  lemma NextEnabledKeepsInvariant(step: int, form: RentalFormData)
    requires StepInvariant(step, form)
    ensures !NextDisabled(LastStep, form)
    ensures !NextDisabled(step, form) && step < LastStep ==> StepInvariant(step + 1, form)
  {
  }

  /** The wizard never stalls on its last step: there the request is always sent. */
  lemma LastStepSubmits(form: RentalFormData)
    requires StepInvariant(LastStep, form)
    ensures SubmitRequest(form).Some?
    ensures SubmitRequest(form).value.rentalType == form.rentalType.value
  {
  }

  /** The initial form satisfies the invariant on the first step and cannot be submitted. */
  lemma InitialFormBlocked()
    ensures StepInvariant(0, InitialFormData)
    ensures NextDisabled(0, InitialFormData)
    ensures SubmitRequest(InitialFormData).None?
  {
  }

  /** The layout's wizard state. */
  class Wizard {
    var isDialogOpen: bool
    var activeStep: int
    var formData: RentalFormData

    /** A closed dialog is back on its first step with the initial form. */
    predicate Valid()
      reads this
    {
      && StepInvariant(activeStep, formData)
      && (!isDialogOpen ==> activeStep == 0 && formData == InitialFormData)
    }

    constructor ()
      ensures Valid()
      ensures !isDialogOpen && activeStep == 0 && formData == InitialFormData
    {
      isDialogOpen := false;
      activeStep := 0;
      formData := InitialFormData;
    }

    /** The "new rental" button. */
    method Open()
      requires Valid()
      modifies this
      ensures Valid()
      ensures isDialogOpen
      ensures activeStep == old(activeStep) && formData == old(formData)
    {
      isDialogOpen := true;
    }

    /** `handleClose`: closes the dialog and resets the step and the form. */
    method HandleClose()
      modifies this
      ensures Valid()
      ensures !isDialogOpen && activeStep == 0 && formData == InitialFormData
    {
      isDialogOpen := false;
      activeStep := 0;
      formData := InitialFormData;
    }

    /** `handleSubmit`: sends the create request when the form has a category and a name,
        and then resets the wizard; otherwise nothing happens. */
    method HandleSubmit() returns (sent: Option<CreateRentalDto>)
      requires Valid()
      modifies this
      ensures Valid()
      ensures sent == SubmitRequest(old(formData))
      ensures sent.Some? ==> !isDialogOpen && activeStep == 0 && formData == InitialFormData
      ensures sent.None? ==>
        isDialogOpen == old(isDialogOpen) && activeStep == old(activeStep) && formData == old(formData)
    {
      sent := SubmitRequest(formData);
      if sent.Some? {
        HandleClose();
      }
    }

    /** `handleNext`, reachable only while the button is enabled: the last step submits,
        every other step moves one step on. */
    method HandleNext() returns (sent: Option<CreateRentalDto>)
      requires Valid() && isDialogOpen && !NextDisabled(activeStep, formData)
      modifies this
      ensures Valid()
      ensures old(activeStep) == LastStep ==>
        sent.Some? && sent == SubmitRequest(old(formData))
        && !isDialogOpen && activeStep == 0 && formData == InitialFormData
      ensures old(activeStep) < LastStep ==>
        sent.None? && isDialogOpen && activeStep == old(activeStep) + 1 && formData == old(formData)
      ensures sent.Some? && sent.value.rentalType == SUP ==>
        sent.value.duration == Some(30) || sent.value.duration == Some(60)
    {
      if activeStep == LastStep {
        LastStepSubmits(formData);
        sent := HandleSubmit();
      } else {
        NextEnabledKeepsInvariant(activeStep, formData);
        activeStep := activeStep + 1;
        sent := None;
      }
    }

    /** `handleBack`, offered only past the first step: one step back, the form kept. */
    method HandleBack()
      requires Valid() && isDialogOpen && activeStep > 0
      modifies this
      ensures Valid()
      ensures isDialogOpen && activeStep == old(activeStep) - 1 && formData == old(formData)
    {
      activeStep := activeStep - 1;
    }

    /** `handleTypeSelect`: a category card on the first step records the category and
        moves on to the details step. */
    method HandleTypeSelect(t: RentalType)
      requires Valid() && isDialogOpen && activeStep == 0
      modifies this
      ensures Valid()
      ensures isDialogOpen && activeStep == 1 && formData == old(formData).(rentalType := Some(t))
    {
      formData := formData.(rentalType := Some(t));
      activeStep := activeStep + 1;
    }

    /** The name field of the details step. */
    method SetCustomerName(name: string)
      requires Valid() && isDialogOpen && activeStep == 1
      modifies this
      ensures Valid()
      ensures isDialogOpen && activeStep == 1 && formData == old(formData).(customerName := name)
    {
      formData := formData.(customerName := name);
    }

    /** The number-of-people field, shown for a bed. */
    method SetNumPeople(n: int)
      requires Valid() && isDialogOpen && activeStep == 1
      modifies this
      ensures Valid()
      ensures isDialogOpen && activeStep == 1 && formData == old(formData).(numPeople := n)
    {
      formData := formData.(numPeople := n);
    }

    /** The duration select, shown for a SUP: it offers only the values of `DurationOptions`. */
    method SetDuration(minutes: int)
      requires Valid() && isDialogOpen && activeStep == 1
      requires minutes == 30 || minutes == 60
      modifies this
      ensures Valid()
      ensures isDialogOpen && activeStep == 1 && formData == old(formData).(duration := Some(minutes))
    {
      formData := formData.(duration := Some(minutes));
    }

    /** The item-count field, shown for a SUP; its `max: 4` is a browser hint, not a check. */
    method SetNumItems(n: int)
      requires Valid() && isDialogOpen && activeStep == 1
      modifies this
      ensures Valid()
      ensures isDialogOpen && activeStep == 1 && formData == old(formData).(numItems := Some(n))
    {
      formData := formData.(numItems := Some(n));
    }

    /** The notes field of the details step. */
    method SetNotes(notes: string)
      requires Valid() && isDialogOpen && activeStep == 1
      modifies this
      ensures Valid()
      ensures isDialogOpen && activeStep == 1 && formData == old(formData).(notes := notes)
    {
      formData := formData.(notes := notes);
    }

    /** The discount field of the details step; the value is kept but never sent. */
    method SetDiscount(discount: int)
      requires Valid() && isDialogOpen && activeStep == 1
      modifies this
      ensures Valid()
      ensures isDialogOpen && activeStep == 1 && formData == old(formData).(discount := discount)
    {
      formData := formData.(discount := discount);
    }

    /** The payment radio group of the last step. */
    method SetPaymentMethod(m: PaymentMethod)
      requires Valid() && isDialogOpen && activeStep == LastStep
      modifies this
      ensures Valid()
      ensures isDialogOpen && activeStep == LastStep && formData == old(formData).(paymentMethod := m)
    {
      formData := formData.(paymentMethod := m);
    }
  }

  /** A full pass through the wizard: choosing a category, typing a name and finishing sends
      a request for that category and name, and leaves the wizard closed and reset. */
  method CompleteRental(w: Wizard, t: RentalType, name: string) returns (sent: Option<CreateRentalDto>)
    requires w.Valid() && w.isDialogOpen && w.activeStep == 0 && name != ""
    modifies w
    ensures w.Valid() && !w.isDialogOpen && w.activeStep == 0 && w.formData == InitialFormData
    ensures sent.Some? && sent.value.rentalType == t && sent.value.customerName == name
    ensures sent.value.duration.Some? <==> t == SUP
  {
    w.HandleTypeSelect(t);
    w.SetCustomerName(name);
    sent := w.HandleNext();
    sent := w.HandleNext();
  }
}
