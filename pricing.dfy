/** The price rules the client applies when it displays a rental (the prices themselves
    are computed by the server, which is not part of this model). */
module Pricing {
  import opened Wrappers
  import opened Types

  /** `rental.finalPrice || rental.basePrice`: the final price once it is set and non-zero,
      the base price otherwise (client/src/components/tabs/SupsTab.tsx:147,
      client/src/components/tabs/BedsTab.tsx:134, client/src/components/DailySummary.tsx:85). */
  function ShownPrice(r: Rental): (p: int)
    ensures p == r.basePrice || r.finalPrice == Some(p)
    ensures r.finalPrice.Some? && r.finalPrice.value != 0 ==> p == r.finalPrice.value
    ensures r.finalPrice == None || r.finalPrice == Some(0) ==> p == r.basePrice
  {
    OptNumOr(r.finalPrice, r.basePrice)
  }

  /** The price of one SUP for a given duration: 60 for half an hour, 100 otherwise
      (client/src/components/tabs/SupsTab.tsx:134, client/src/components/Layout/index.tsx:255). */
  function SupUnitPrice(duration: Option<int>): (p: int)
    ensures p == 60 || p == 100
    ensures p == 60 <==> duration == Some(30)
  {
    if duration == Some(30) then 60 else 100
  }

  /** `rental.numItems || 1`: a missing or zero item count displays as one. */
  function ItemsShown(r: Rental): (n: int)
    ensures n != 0
    ensures n == 1 || r.numItems == Some(n)
    ensures r.numItems.Some? && r.numItems.value != 0 ==> n == r.numItems.value
  {
    OptNumOr(r.numItems, 1)
  }
}
