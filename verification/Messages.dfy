/** Identifiers and the integration messages the three services exchange. */
module Messages {
  import opened Prelude

  type OrderId = nat
  type DriverId = nat
  type DispatchId = nat
  type EventId = nat

  datatype FailureReason =
    | NoGeoEligibleDriver | NoAvailableDriver | DriverReservationFailed | AssignmentTimeout
    | Requested(text: string)

  /**
   * A message as its consumer sees it; `eventId` is the payload's event id and therefore the inbox key.
   * The driver service spreads the request into its replies, so a reply carries its request's event id.
   */
  datatype Message =
    | OrderReady(eventId: EventId, orderId: OrderId)
    | DispatchStarted(eventId: EventId, orderId: OrderId, dispatchId: DispatchId)
    | DispatchAssigned(eventId: EventId, orderId: OrderId, dispatchId: DispatchId, driverId: DriverId)
    | DispatchFailed(eventId: EventId, orderId: OrderId, dispatchId: DispatchId, reason: FailureReason)
    | DispatchCancelled(eventId: EventId, orderId: OrderId, dispatchId: DispatchId)
    | ReservationRequested(eventId: EventId, orderId: OrderId, dispatchId: DispatchId,
                           candidates: Option<seq<DriverId>>)
    | ReleaseRequested(eventId: EventId, orderId: OrderId, dispatchId: DispatchId, driverId: DriverId)
    | DriverReserved(eventId: EventId, orderId: OrderId, dispatchId: DispatchId, driverId: DriverId)
    | ReservationFailed(eventId: EventId, orderId: OrderId, dispatchId: DispatchId, reason: FailureReason)
    | DriverReleased(eventId: EventId, orderId: OrderId, dispatchId: DispatchId, driverId: DriverId)
}
