/** The older record types of shared/types/index.ts, which RentalCard imports:
    a rental there carries an `isActive` flag and no duration or item count. */
module LegacyTypes {
  import opened Wrappers
  import opened Types

  datatype LegacyRental = LegacyRental(
    id: int,
    rentalType: RentalType,
    startTime: int,
    endTime: Option<int>,
    numPeople: int,
    customerName: string,
    notes: Option<string>,
    basePrice: int,
    finalPrice: Option<int>,
    discount: int,
    extraTime: int,
    paymentMethod: PaymentMethod,
    isActive: bool)
}
