/** The outbound SMS gateway (`TwillioService`). Its implementation is outside this model; what the
    orchestrator relies on is that each call is one dispatch of `(phoneNumber, message)`. */
module Gateway {
  import opened JavaStrings
  import opened Interactions

  class TwillioService {
    const journal: Journal

    constructor (journal: Journal)
      ensures this.journal == journal
    {
      this.journal := journal;
    }

    method SendSms(phoneNumber: JString, message: JString)
      modifies journal
      ensures journal.log == old(journal.log) + [Dispatch(phoneNumber, message)]
    {
      journal.log := journal.log + [Dispatch(phoneNumber, message)];
    }
  }
}
