/** models/alert.py: the list of alert messages received so far. */
module Alerts {
  class Alert {
    var alerts: seq<string>

    /** `__init__` (lines 4-5): no alerts yet. */
    constructor ()
      ensures alerts == []
    {
      alerts := [];
    }

    /** `add_alert(message)` (lines 7-10): the message goes at the end; every
     *  earlier alert stays where it was. */
    method AddAlert(message: string)
      modifies this
      ensures alerts == old(alerts) + [message]
      ensures |alerts| == |old(alerts)| + 1 && alerts[|alerts| - 1] == message
      ensures forall i | 0 <= i < |old(alerts)| :: alerts[i] == old(alerts)[i]
    {
      alerts := alerts + [message];
    }
  }
}
