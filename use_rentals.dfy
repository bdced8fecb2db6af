/** The pure part of the rentals hook (client/src/hooks/useRentals.ts); fetching, polling
    and the create/update/end mutations are transport and are not modelled. */
module UseRentals {
  import opened Types
  import opened Filtering

  /** `getActiveRentalsByType(type)`: the rentals of that type that have not ended,
      in list order. */
  function ActiveRentalsByType(rentals: seq<Rental>, t: RentalType): (r: seq<Rental>)
    ensures forall x :: x in r ==> x.rentalType == t && x.IsActive()
    ensures forall x :: x in rentals && x.rentalType == t && x.IsActive() ==> x in r
    ensures IsSubsequence(r, rentals)
  {
    var keep := (x: Rental) => x.rentalType == t && x.IsActive();
    FilterIsSubsequence(rentals, keep);
    Filter(rentals, keep)
  }

  /** No rental is listed under two different types. */
  lemma DistinctTypesDisjoint(rentals: seq<Rental>, t1: RentalType, t2: RentalType)
    requires t1 != t2
    ensures forall x :: x in ActiveRentalsByType(rentals, t1) ==> x !in ActiveRentalsByType(rentals, t2)
  {
  }
}
