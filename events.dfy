/** The delivery-outcome record that the service hands to Kafka (`com.example.demo.model.SmsEvent`). */
module Events {
  import opened JavaStrings

  /** One outcome record. `eventId` is an optional correlation id that the producer layer may set;
      the orchestrator never sets it. */
  datatype SmsEvent = SmsEvent(phoneNumber: JString, message: JString, status: JString, eventId: JString)

  /** The three-argument constructor `new SmsEvent(phoneNumber, message, status)`: no event id. */
  function NewEvent(phoneNumber: JString, message: JString, status: string): SmsEvent {
    SmsEvent(phoneNumber, message, Some(status), None)
  }

  /** `setEventId(id)` on an event. */
  function WithEventId(e: SmsEvent, id: JString): SmsEvent {
    e.(eventId := id)
  }
}
