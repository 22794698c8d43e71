/** A tournament: what the pipeline produces. */
module Tournaments {
  import opened Dates
  import opened Events

  /**
   * A tournament's name, its events in no particular order, and its dates. The end
   * date is the feed's own: the day after the last day of competition. The name, the
   * dates and which events are listed are fixed once built; the `Event` objects the
   * list refers to are not, since `Events.Event.PushEntry` can still append to them.
   */
  datatype Tournament = Tournament(name: string, events: seq<Event>, startDate: NaiveDate, endDate: NaiveDate) {

    function Name(): string {
      name
    }

    function EventList(): seq<Event> {
      events
    }

    function StartDate(): NaiveDate {
      startDate
    }

    function EndDate(): NaiveDate {
      endDate
    }
  }
}
