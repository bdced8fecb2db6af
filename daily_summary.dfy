/** The daily summary panel (client/src/components/DailySummary.tsx): the totals it folds
    out of every rental the client holds, and how it reads the server's answer to a
    day reset. The reset request itself, its retries and the page reload are not modelled. */
module DailySummary {
  import opened Wrappers
  import opened Types
  import opened Filtering
  import Pricing
  import Text

  /** `DailySummaryData`: the six figures the panel shows. */
  datatype Totals = Totals(
    totalRevenue: int,
    totalDiscounts: int,
    totalRentals: int,
    bedRentals: int,
    supRentals: int,
    snorkelRentals: int)

  /** The reduce's initial accumulator. */
  const Zero := Totals(0, 0, 0, 0, 0, 0)

  function Plus(a: Totals, b: Totals): Totals {
    Totals(a.totalRevenue + b.totalRevenue, a.totalDiscounts + b.totalDiscounts,
           a.totalRentals + b.totalRentals, a.bedRentals + b.bedRentals,
           a.supRentals + b.supRentals, a.snorkelRentals + b.snorkelRentals)
  }

  /** What one rental adds to the accumulator: its shown price (`finalPrice || basePrice`),
      its discount (`discount || 0`), one rental, and one rental of its own type. */
  function Contribution(r: Rental): (c: Totals)
    ensures c.totalRentals == 1
    ensures c.bedRentals + c.supRentals + c.snorkelRentals == 1
    ensures c.bedRentals == 1 <==> r.rentalType == BED
    ensures c.supRentals == 1 <==> r.rentalType == SUP
    ensures c.snorkelRentals == 1 <==> r.rentalType == SNORKEL
    ensures c.totalDiscounts == r.discount
    ensures c.totalRevenue == Pricing.ShownPrice(r)
  {
    Totals(Pricing.ShownPrice(r), NumOr(r.discount, 0), 1,
           if r.rentalType == BED then 1 else 0,
           if r.rentalType == SUP then 1 else 0,
           if r.rentalType == SNORKEL then 1 else 0)
  }

  /** `rentals.reduce(step, Zero)`: a left fold over the whole list, active and ended
      rentals alike. */
  function ComputeTotals(rentals: seq<Rental>): (t: Totals)
    ensures rentals == [] ==> t == Zero
    ensures t.totalRentals == |rentals|
    ensures t.bedRentals + t.supRentals + t.snorkelRentals == t.totalRentals
    ensures 0 <= t.bedRentals && 0 <= t.supRentals && 0 <= t.snorkelRentals
  {
    if rentals == [] then Zero
    else Plus(ComputeTotals(rentals[..|rentals| - 1]), Contribution(rentals[|rentals| - 1]))
  }

  /** Adding one rental at the end of the list adds its contribution. */
  lemma TotalsSnoc(s: seq<Rental>, x: Rental)
    ensures ComputeTotals(s + [x]) == Plus(ComputeTotals(s), Contribution(x))
  {
    assert (s + [x])[..|s|] == s;
  }

  /** The totals of two lists put together are the sums of their totals. */
  lemma {:induction false} TotalsAppend(a: seq<Rental>, b: seq<Rental>)
    ensures ComputeTotals(a + b) == Plus(ComputeTotals(a), ComputeTotals(b))
    decreases |b|
  {
    if b == [] {
      assert a + b == a;
    } else {
      var b', x := b[..|b| - 1], b[|b| - 1];
      assert a + b == (a + b') + [x];
      assert b == b' + [x];
      calc {
        ComputeTotals(a + b);
        { TotalsSnoc(a + b', x); }
        Plus(ComputeTotals(a + b'), Contribution(x));
        { TotalsAppend(a, b'); }
        Plus(Plus(ComputeTotals(a), ComputeTotals(b')), Contribution(x));
        Plus(ComputeTotals(a), Plus(ComputeTotals(b'), Contribution(x)));
        { TotalsSnoc(b', x); }
        Plus(ComputeTotals(a), ComputeTotals(b));
      }
    }
  }

  lemma TotalsSingle(r: Rental)
    ensures ComputeTotals([r]) == Contribution(r)
  {
    assert [r][..0] == [];
  }

  /** The totals do not depend on the order of the list: any rearrangement of the same
      rentals gives the same six figures. */
  lemma {:induction false} TotalsPermutation(a: seq<Rental>, b: seq<Rental>)
    requires multiset(a) == multiset(b)
    ensures ComputeTotals(a) == ComputeTotals(b)
    decreases |a|
  {
    if a != [] {
      var x := a[0];
      assert x in multiset(b);
      var i :| 0 <= i < |b| && b[i] == x;
      var pre, post := b[..i], b[i + 1..];
      assert b == (pre + [x]) + post;
      assert a == [x] + a[1..];
      assert multiset(b) == multiset(pre) + multiset{x} + multiset(post);
      assert multiset(a) == multiset{x} + multiset(a[1..]);
      assert multiset(pre + post) == multiset(pre) + multiset(post);
      assert multiset(a[1..]) == multiset(a) - multiset{x};
      assert multiset(pre + post) == multiset(b) - multiset{x};
      TotalsPermutation(a[1..], pre + post);
      TotalsSingle(x);
      TotalsAppend([x], a[1..]);
      TotalsAppend(pre + [x], post);
      TotalsAppend(pre, [x]);
      TotalsAppend(pre, post);
      PlusRearrange(ComputeTotals(pre), Contribution(x), ComputeTotals(post));
    }
  }

  lemma PlusRearrange(p: Totals, c: Totals, q: Totals)
    ensures Plus(Plus(p, c), q) == Plus(c, Plus(p, q))
  {
  }

  /** The per-type figure of the totals for type `t`. */
  function CountOf(totals: Totals, t: RentalType): int {
    match t
    case BED => totals.bedRentals
    case SUP => totals.supRentals
    case SNORKEL => totals.snorkelRentals
  }

  /** Each per-type figure counts the rentals of that type. */
  lemma {:induction false} TypeCount(rentals: seq<Rental>, t: RentalType)
    ensures CountOf(ComputeTotals(rentals), t) == |Filter(rentals, (x: Rental) => x.rentalType == t)|
  {
    if rentals != [] {
      var init, last := rentals[..|rentals| - 1], rentals[|rentals| - 1];
      assert rentals == init + [last];
      TypeCount(init, t);
      TotalsSnoc(init, last);
      FilterAppend(init, [last], (x: Rental) => x.rentalType == t);
    }
  }

  lemma TypeCounts(rentals: seq<Rental>)
    ensures ComputeTotals(rentals).bedRentals == |Filter(rentals, (x: Rental) => x.rentalType == BED)|
    ensures ComputeTotals(rentals).supRentals == |Filter(rentals, (x: Rental) => x.rentalType == SUP)|
    ensures ComputeTotals(rentals).snorkelRentals == |Filter(rentals, (x: Rental) => x.rentalType == SNORKEL)|
  {
    TypeCount(rentals, BED);
    TypeCount(rentals, SUP);
    TypeCount(rentals, SNORKEL);
  }

  /** Revenue counts each rental at its shown price: an ended rental whose final price
      is 0 adds its base price, and an active one adds its base price. */
  lemma RevenueOfOne(r: Rental)
    ensures ComputeTotals([r]).totalRevenue ==
      if r.finalPrice.Some? && r.finalPrice.value != 0 then r.finalPrice.value else r.basePrice
    ensures ComputeTotals([r]).totalDiscounts == r.discount
  {
    TotalsSingle(r);
  }

  /** Ending a rental changes the totals only through its final price: with the same
      shown price, an active and an ended rental contribute the same. */
  lemma EndingKeepsContribution(r: Rental, endTime: int)
    requires r.finalPrice.None?
    ensures Contribution(r.(endTime := Some(endTime))) == Contribution(r)
    ensures Contribution(r.(endTime := Some(endTime), finalPrice := Some(0))) == Contribution(r)
  {
  }

  /** The part of the server's answer to a reset that the panel reads. */
  datatype ResetDetails = ResetDetails(rentalsDeleted: int)

  datatype ResetResponse = ResetResponse(
    success: bool,
    message: string,
    summary: Option<Totals>,
    error: Option<string>,
    details: Option<ResetDetails>)

  /** `if (!success) throw new Error(error || 'Reset failed')`, then on success
      `details?.rentalsDeleted || 0`: the number of rentals deleted, or the error message. */
  function ResetOutcome(resp: ResetResponse): (out: Result<int, string>)
    ensures out.Failure? <==> !resp.success
    ensures out.Failure? ==> out.error != ""
    ensures out.Failure? ==> (out.error == "Reset failed" || resp.error == Some(out.error))
    ensures out.Failure? && resp.error.Some? && resp.error.value != "" ==> out.error == resp.error.value
    ensures out.Success? ==> (out.value == 0 || resp.details == Some(ResetDetails(out.value)))
    ensures out.Success? && resp.details.Some? ==> out.value == resp.details.value.rentalsDeleted
  {
    if !resp.success then Failure(OptStrOr(resp.error, "Reset failed"))
    else Success(if resp.details.Some? then NumOr(resp.details.value.rentalsDeleted, 0) else 0)
  }

  /** The banner the panel shows after a reset: a success message naming the number of
      deleted rentals, or an error message carrying the failure's text. */
  datatype Notice = SuccessNotice(text: string) | ErrorNotice(text: string)

  const SuccessPrefix := "היום אופס בהצלחה. נמחקו "
  const SuccessSuffix := " השכרות."
  const ErrorPrefix := "שגיאה באיפוס היום: "

  function ResetNotice(resp: ResetResponse): (n: Notice)
    ensures n.ErrorNotice? <==> !resp.success
  {
    match ResetOutcome(resp)
    case Success(deleted) => SuccessNotice(SuccessPrefix + Text.IntToString(deleted) + SuccessSuffix)
    case Failure(msg) => ErrorNotice(ErrorPrefix + msg)
  }

  /** The success banner names exactly the deleted count: reading the number back out of
      the text gives the count the server reported. */
  lemma {:induction false} NoticeNamesCount(resp: ResetResponse)
    requires resp.success
    ensures var t := ResetNotice(resp).text;
      && |t| > |SuccessPrefix| + |SuccessSuffix|
      && t[..|SuccessPrefix|] == SuccessPrefix
      && t[|t| - |SuccessSuffix|..] == SuccessSuffix
      && var digits := t[|SuccessPrefix|..|t| - |SuccessSuffix|];
         && Text.IsIntText(digits)
         && Text.ParseInt(digits) == ResetOutcome(resp).value
  {
    var n := ResetOutcome(resp).value;
    var s := Text.IntToString(n);
    var t := SuccessPrefix + s + SuccessSuffix;
    assert t[|SuccessPrefix|..|t| - |SuccessSuffix|] == s;
    assert t[..|SuccessPrefix|] == SuccessPrefix;
    assert t[|t| - |SuccessSuffix|..] == SuccessSuffix;
    Text.ParseIntToString(n);
  }
}
