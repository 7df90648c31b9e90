/** Everything that happened to an order, told from the envelope alone. */
module Notifications {
  import opened Fulfilment

  type Timeline = map<string, seq<EventType>>

  function TimelineOf(timeline: Timeline, orderId: string): seq<EventType> {
    if orderId in timeline then timeline[orderId] else []
  }

  function Record(timeline: Timeline, m: Message): Timeline {
    timeline[m.correlation := TimelineOf(timeline, m.correlation) + [m.event.Type()]]
  }

  class NotificationsService {
    var timeline: Timeline

    constructor ()
      ensures timeline == map[]
    {
      timeline := map[];
    }

    method RecordMessage(m: Message)
      modifies this
      ensures timeline == Record(old(timeline), m)
      ensures var told := if m.correlation in old(timeline) then old(timeline)[m.correlation] else [];
              timeline == old(timeline)[m.correlation := told + [m.event.Type()]]
    {
      var order := m.correlation;
      if order !in timeline {
        timeline := timeline[order := []];
      }
      timeline := timeline[order := timeline[order] + [m.event.Type()]];
    }
  }
}
