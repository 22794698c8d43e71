/**
 * The flat records of the tabroom feed: one record type per tag, each with the
 * feed's integer id, its integer foreign keys and its scalar fields, and the
 * decoded feed as a whole. Turning the XML text into these records is the
 * decoder's job and is not modelled; the one piece of hand-written decoding, the
 * `STARTDATE` field of `TOURN`, is.
 */
module Orm {
  import opened Wrappers
  import opened Numeric
  import opened Dates

  /** The decoder's error, known by its message. */
  datatype DeError =
    | Custom(message: string)        // raised by a field's own decoding, such as the date below
    | Malformed(diagnostic: string)  // everything else the decoder rejects

  /** A 32-bit float of the feed, kept as its bits: the model does no arithmetic on it. */
  datatype F32 = F32(bits: bv32)

  /** `TOURN`, the header. `ENDDATE` stays the feed's text; only `STARTDATE` is a date. */
  datatype Tourn = Tourn(id: i32, tournName: string, startDate: NaiveDate, endDate: string, downloadSite: string)

  /** `EVENT`. */
  datatype Event = Event(abbr: string, eventName: string, id: i32, judgeGroup: i32, eventType: string)

  /** `ENTRY`; `event` is the id of the event the entry competes in. */
  datatype Entry = Entry(
    id: i32, school: i32, event: i32, rating: i32, code: string, fullName: string,
    dropped: bool, waitlist: bool, ada: bool, tubDisability: bool)

  /** `JUDGE`. */
  datatype Judge = Judge(
    id: i32, downloadRecord: bool, school: i32, first: string, last: string, person: i32,
    obligation: i32, hired: bool, tabRating: i32, stopScheduling: bool, ada: bool,
    diverse: bool, notes: bool, email: bool)

  /** `SCHOOL`. */
  datatype School = School(
    id: i32, downloadRecord: bool, code: string, schoolName: string, coaches: i32,
    chapter: bool, nsda: bool)

  /** `ROUND`. */
  datatype Round = Round(
    id: i32, event: i32, timeSlot: i32, tiebreakSet: i32, rdName: i32, labelText: string,
    flighting: i32, judgesPerPanel: i32, judgePlaceScheme: bool, pairingScheme: string,
    runoff: bool, topic: bool, createdOffline: bool)

  /** `PANEL`. */
  datatype Panel = Panel(id: i32, round: i32, room: i32, flight: i32, bye: bool)

  /** `BALLOT`; `entry` is the id of the entry the ballot is for. */
  datatype Ballot = Ballot(
    id: i32, judge: i32, panel: i32, entry: i32, side: i32, room: i32,
    bye: bool, noShow: bool, chair: bool)

  /** `BALLOT_SCORE`. */
  datatype BallotScore = BallotScore(
    id: i32, ballot: i32, recipient: i32, scoreId: string, speech: i32, score: F32)

  /** `TIEBREAK`. */
  datatype Tiebreak = Tiebreak(
    id: i32, sortOrder: i32, drops: i32, forOpponent: bool, labelText: string, tag: string, tbSet: i32)

  /** `TIEBREAK_SET`. */
  datatype TiebreakSet = TiebreakSet(id: i32, scoreFor: string, tbSetName: string)

  /** `TIMESLOT`. */
  datatype TimeSlot = TimeSlot(id: i32, timeSlotName: string, end: string, start: string)

  /** `ROOM`. */
  datatype Room = Room(
    id: i32, building: i32, roomName: string, quality: i32, capacity: i32, inactive: bool, notes: bool)

  /** A decoded feed: exactly one header and, for every other tag, all its records in feed order. */
  datatype TournamentResults = TournamentResults(
    tourn: Tourn,
    events: seq<Event>,
    entries: seq<Entry>,
    judges: seq<Judge>,
    schools: seq<School>,
    rounds: seq<Round>,
    panels: seq<Panel>,
    ballots: seq<Ballot>,
    ballotScores: seq<BallotScore>,
    tiebreaks: seq<Tiebreak>,
    tiebreakSets: seq<TiebreakSet>,
    timeSlots: seq<TimeSlot>,
    rooms: seq<Room>)

  /**
   * `tabroom_dates::deserialize`: the field's text read with `%m/%d/%Y`. Text that does
   * not match, or names no calendar day, is a decode error carrying chrono's message.
   */
  function DeserializeDate(text: string): (r: Result<NaiveDate, DeError>)
    ensures r.Ok? <==> ParseDate(text).Ok?
    ensures r.Ok? ==> r.value == ParseDate(text).value
    ensures r.Err? ==> r.error == Custom(ErrorText(ParseDate(text).error))
  {
    match ParseDate(text)
    case Ok(date) => Ok(date)
    case Err(kind) => Err(Custom(ErrorText(kind)))
  }

  /** Every valid date of a four-digit year, written as the feed writes it, decodes to itself. */
  lemma DeserializeDateRoundTrip(date: Date)
    requires IsValid(date) && 0 <= date.year < 10000
    ensures DeserializeDate(Render(date.month, date.day, date.year)) == Ok(date)
  {
    ParseRenderRoundTrip(date);
  }

  /** The `TOURN` tag's fields as they stand in the feed, before `STARTDATE` is read as a date. */
  datatype RawTourn = RawTourn(id: i32, tournName: string, startDate: string, endDate: string, downloadSite: string)

  /**
   * Decoding the `TOURN` tag: `STARTDATE` goes through the date decoder, whose error
   * fails the whole record; every other field, `ENDDATE` included, is taken as it is.
   */
  function DecodeTourn(raw: RawTourn): (r: Result<Tourn, DeError>)
    ensures r.Ok? <==> ParseDate(raw.startDate).Ok?
    ensures r.Err? ==> r.error == Custom(ErrorText(ParseDate(raw.startDate).error))
    ensures r.Ok? ==> r.value.startDate == ParseDate(raw.startDate).value
    ensures r.Ok? ==> r.value.id == raw.id && r.value.tournName == raw.tournName
                      && r.value.endDate == raw.endDate && r.value.downloadSite == raw.downloadSite
  {
    var startDate :- DeserializeDate(raw.startDate);
    Ok(Tourn(raw.id, raw.tournName, startDate, raw.endDate, raw.downloadSite))
  }

  /** `ENDDATE` is not read as a date: whatever its text, it cannot make the header fail. */
  lemma DecodeTournIgnoresEndDateText(raw: RawTourn, endDate: string)
    ensures DecodeTourn(raw.(endDate := endDate)).Ok? == DecodeTourn(raw).Ok?
    ensures DecodeTourn(raw).Ok? ==> DecodeTourn(raw.(endDate := endDate)).value.endDate == endDate
  {
  }

  /** The header of the National Parliamentary Debate Invitational feed decodes to its start date. */
  lemma DecodeFixtureTourn(id: i32, downloadSite: string)
    ensures var raw := RawTourn(id, "National Parliamentary Debate Invitational", "11/14/2020", "11/16/2020", downloadSite);
      DecodeTourn(raw) == Ok(Tourn(id, "National Parliamentary Debate Invitational", Date(2020, 11, 14), "11/16/2020", downloadSite))
  {
    ParseFixtureStartDate();
  }
}
