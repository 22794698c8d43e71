/**
 * Resolving the flat records of a decoded feed into a tournament: events and entries
 * are keyed by their feed ids, every entry is moved into the event its `EVENT`
 * foreign key names, a ballot index is built from the `ENTRY` foreign key of each
 * ballot, and the events are drained, in no particular order, into the tournament.
 *
 * `HashMap` iteration order is unspecified; the model walks a map's keys in an order
 * it chooses and reports that order as a ghost result, so that the contracts can say
 * what holds whatever the order was.
 */
module ProcessApi {
  import opened Wrappers
  import opened Numeric
  import opened Dates
  import opened Entries
  import opened Events
  import opened Tournaments
  import opened Collect
  import Orm

  /** A value that still has to be moved into the owner `associatedId` names. */
  datatype AssociatedId<T> = AssociatedId(associatedId: i32, inner: T)

  /** A ballot's two entries, each given by its entry id. */
  datatype Ballot = Ballot(first: Option<i32>, second: Option<i32>)

  /** No element of the sequence occurs twice. */
  predicate NoDuplicates<T(==)>(s: seq<T>) {
    forall i, j :: 0 <= i < j < |s| ==> s[i] != s[j]
  }

  /** `order` lists each key of `keys` exactly once: one way of walking a map. */
  predicate IsOrdering<K(==)>(order: seq<K>, keys: set<K>) {
    && NoDuplicates(order)
    && (forall i :: 0 <= i < |order| ==> order[i] in keys)
    && (forall k :: k in keys ==> k in order)
  }

  /** Part way through a walk of `keys`: `order` was visited, each once, and `remaining` was not. */
  predicate Walking<K(==)>(order: seq<K>, remaining: set<K>, keys: set<K>) {
    && remaining <= keys
    && NoDuplicates(order)
    && (forall i :: 0 <= i < |order| ==> order[i] in keys && order[i] !in remaining)
    && (forall k :: k in keys ==> k in remaining || k in order)
  }

  lemma WalkStep<K>(order: seq<K>, remaining: set<K>, keys: set<K>, k: K)
    requires Walking(order, remaining, keys) && k in remaining
    ensures Walking(order + [k], remaining - {k}, keys)
  {
  }

  lemma WalkDone<K>(order: seq<K>, keys: set<K>)
    requires Walking(order, {}, keys)
    ensures IsOrdering(order, keys)
  {
  }

  /** An ordering of a set is as long as the set is large. */
  lemma {:induction false} OrderingSize<K>(order: seq<K>, keys: set<K>)
    requires IsOrdering(order, keys)
    ensures |order| == |keys|
  {
    if order != [] {
      var last := order[|order| - 1];
      var rest := order[..|order| - 1];
      assert forall i :: 0 <= i < |rest| ==> rest[i] == order[i];
      forall k | k in keys - {last} ensures k in rest {
        var i :| 0 <= i < |order| && order[i] == k;
        assert i != |order| - 1;
      }
      OrderingSize(rest, keys - {last});
    } else {
      assert keys == {};
    }
  }

  // process_events

  function EventPairs(records: seq<Orm.Event>): (pairs: seq<(i32, Orm.Event)>)
    ensures |pairs| == |records|
    ensures forall i :: 0 <= i < |records| ==> pairs[i] == (records[i].id, records[i])
  {
    seq(|records|, i requires 0 <= i < |records| => (records[i].id, records[i]))
  }

  /** `records[i]` is the last event record of the feed with id `id`. */
  predicate IsLastEvent(records: seq<Orm.Event>, i: int, id: i32) {
    0 <= i < |records| && records[i].id == id && forall j :: i < j < |records| ==> records[j].id != id
  }

  /** The event records by id: each id of the feed, with the last record given for it. */
  function EventRecords(records: seq<Orm.Event>): (m: map<i32, Orm.Event>)
    ensures forall id :: id in m <==> exists i :: 0 <= i < |records| && records[i].id == id
    ensures forall id :: id in m ==> exists i :: IsLastEvent(records, i, id) && m[id] == records[i]
  {
    var pairs := EventPairs(records);
    assert forall i, id :: IsLastWithKey(pairs, i, id) ==> IsLastEvent(records, i, id);
    Collect.Collect(pairs)
  }

  lemma EventRecordsSnoc(records: seq<Orm.Event>, i: nat)
    requires i < |records|
    ensures EventRecords(records[..i + 1]) == EventRecords(records[..i])[records[i].id := records[i]]
  {
    assert EventPairs(records[..i + 1]) == EventPairs(records[..i]) + [(records[i].id, records[i])];
    CollectSnoc(EventPairs(records[..i]), records[i].id, records[i]);
  }

  /** The event `Event::new` builds from a record: its abbreviation, name and classified type. */
  predicate BuiltFrom(ev: Event, rec: Orm.Event) {
    ev.Abbr() == rec.abbr && ev.Name() == rec.eventName && ev.Kind() == KindFrom(rec.eventType)
  }

  /** No two ids share an event object: each event is owned by exactly one slot of the map. */
  predicate Distinct(events: map<i32, Event>) {
    forall a, b :: a in events && b in events && a != b ==> events[a] != events[b]
  }

  /**
   * `process_events`: one new, empty event per distinct event id of the feed, built
   * from the last record with that id.
   */
  method ProcessEvents(records: seq<Orm.Event>) returns (events: map<i32, Event>)
    ensures events.Keys == EventRecords(records).Keys
    ensures forall id :: id in events ==> BuiltFrom(events[id], EventRecords(records)[id])
    ensures forall id :: id in events ==> fresh(events[id]) && events[id].entries == []
    ensures Distinct(events)
  {
    events := map[];
    for i := 0 to |records|
      invariant events.Keys == EventRecords(records[..i]).Keys
      invariant forall id :: id in events ==> BuiltFrom(events[id], EventRecords(records[..i])[id])
      invariant forall id :: id in events ==> fresh(events[id]) && events[id].entries == []
      invariant Distinct(events)
    {
      var rec := records[i];
      var ev := new Event(rec.abbr, rec.eventName, KindFrom(rec.eventType));
      EventRecordsSnoc(records, i);
      events := events[rec.id := ev];
    }
    assert records[..|records|] == records;
  }

  // process_entries

  function EntryPairs(records: seq<Orm.Entry>): (pairs: seq<(i32, AssociatedId<Entry>)>)
    ensures |pairs| == |records|
    ensures forall i :: 0 <= i < |records| ==>
      pairs[i] == (records[i].id, AssociatedId(records[i].event, New(records[i].code, records[i].fullName)))
  {
    seq(|records|, i requires 0 <= i < |records| =>
      (records[i].id, AssociatedId(records[i].event, New(records[i].code, records[i].fullName))))
  }

  /** `records[i]` is the last entry record of the feed with id `id`. */
  predicate IsLastEntry(records: seq<Orm.Entry>, i: int, id: i32) {
    0 <= i < |records| && records[i].id == id && forall j :: i < j < |records| ==> records[j].id != id
  }

  /**
   * `process_entries`: each distinct entry id of the feed, with `Entry::new(code,
   * full name)` of the last record given for it, tagged with that record's event id.
   */
  function ProcessEntries(records: seq<Orm.Entry>): (entries: map<i32, AssociatedId<Entry>>)
    ensures forall id :: id in entries <==> exists i :: 0 <= i < |records| && records[i].id == id
    ensures forall id :: id in entries ==>
      exists i :: IsLastEntry(records, i, id)
                  && entries[id] == AssociatedId(records[i].event, New(records[i].code, records[i].fullName))
  {
    var pairs := EntryPairs(records);
    assert forall i, id :: IsLastWithKey(pairs, i, id) ==> IsLastEntry(records, i, id);
    Collect.Collect(pairs)
  }

  // the join

  /** What `.expect("tab gives valid event ids")` demands: every entry's event id is an event's. */
  predicate EventIdsResolve(entries: map<i32, AssociatedId<Entry>>, eventIds: set<i32>) {
    forall id :: id in entries ==> entries[id].associatedId in eventIds
  }

  /** The ids, in walk order, of the entries whose event id is `eventId`. */
  function IdsFor(entries: map<i32, AssociatedId<Entry>>, order: seq<i32>, eventId: i32): (ids: seq<i32>)
    requires forall i :: 0 <= i < |order| ==> order[i] in entries
    ensures forall i :: 0 <= i < |ids| ==> ids[i] in entries
  {
    if order == [] then []
    else
      var last := order[|order| - 1];
      IdsFor(entries, order[..|order| - 1], eventId)
        + (if entries[last].associatedId == eventId then [last] else [])
  }

  /** The entries the ids name. */
  function Inners(entries: map<i32, AssociatedId<Entry>>, ids: seq<i32>): (r: seq<Entry>)
    requires forall i :: 0 <= i < |ids| ==> ids[i] in entries
    ensures |r| == |ids| && forall i :: 0 <= i < |ids| ==> r[i] == entries[ids[i]].inner
  {
    seq(|ids|, i requires 0 <= i < |ids| => entries[ids[i]].inner)
  }

  lemma InnersSnoc(entries: map<i32, AssociatedId<Entry>>, ids: seq<i32>, id: i32)
    requires forall i :: 0 <= i < |ids| ==> ids[i] in entries
    requires id in entries
    ensures Inners(entries, ids + [id]) == Inners(entries, ids) + [entries[id].inner]
  {
  }

  lemma IdsForSnoc(entries: map<i32, AssociatedId<Entry>>, order: seq<i32>, id: i32, eventId: i32)
    requires forall i :: 0 <= i < |order| ==> order[i] in entries
    requires id in entries
    ensures IdsFor(entries, order + [id], eventId)
         == IdsFor(entries, order, eventId) + (if entries[id].associatedId == eventId then [id] else [])
  {
    assert (order + [id])[..|order|] == order;
  }

  /** Each event holds what it held at first followed by its own entries among those walked so far. */
  ghost predicate Placed(events: map<i32, Event>, entries: map<i32, AssociatedId<Entry>>,
                         before: map<i32, seq<Entry>>, order: seq<i32>)
    requires forall i :: 0 <= i < |order| ==> order[i] in entries
    reads set id | id in events :: events[id]
  {
    forall id :: id in events ==>
      id in before && events[id].entries == before[id] + Inners(entries, IdsFor(entries, order, id))
  }

  /** One step of the join: the entry `id` is appended to the event its event id names. */
  method PlaceEntry(events: map<i32, Event>, entries: map<i32, AssociatedId<Entry>>,
                    ghost before: map<i32, seq<Entry>>, ghost order: seq<i32>, id: i32)
    requires Distinct(events)
    requires forall i :: 0 <= i < |order| ==> order[i] in entries
    requires id in entries && entries[id].associatedId in events
    requires Placed(events, entries, before, order)
    modifies events[entries[id].associatedId]
    ensures Placed(events, entries, before, order + [id])
  {
    var entry := entries[id];
    var target := events[entry.associatedId];
    label Before:
    target.PushEntry(entry.inner);
    forall eventId | eventId in events
      ensures events[eventId].entries == before[eventId] + Inners(entries, IdsFor(entries, order + [id], eventId))
    {
      IdsForSnoc(entries, order, id, eventId);
      if eventId == entry.associatedId {
        InnersSnoc(entries, IdsFor(entries, order, eventId), id);
      } else {
        assert events[eventId] != target;
        assert events[eventId].entries == old@Before(events[eventId].entries);
      }
    }
  }

  /**
   * The loop of `process_api_impl`: walks the entry map and appends each entry to the
   * event its event id names. Each event receives exactly its own entries, in walk order.
   */
  method MoveEntries(events: map<i32, Event>, entries: map<i32, AssociatedId<Entry>>)
    returns (ghost order: seq<i32>)
    requires Distinct(events)
    requires EventIdsResolve(entries, events.Keys)
    modifies set id | id in events :: events[id]
    ensures IsOrdering(order, entries.Keys)
    ensures forall id :: id in events ==>
      events[id].entries == old(events[id].entries) + Inners(entries, IdsFor(entries, order, id))
  {
    ghost var before := map id | id in events :: events[id].entries;
    var remaining := entries.Keys;
    order := [];
    while remaining != {}
      invariant Walking(order, remaining, entries.Keys)
      invariant Placed(events, entries, before, order)
      decreases remaining
    {
      var id :| id in remaining;
      PlaceEntry(events, entries, before, order, id);
      WalkStep(order, remaining, entries.Keys, id);
      remaining := remaining - {id};
      order := order + [id];
    }
    WalkDone(order, entries.Keys);
  }

  /** An entry is in the list of an event exactly when it was walked and its event id is that event's. */
  lemma {:induction false} IdsForExact(entries: map<i32, AssociatedId<Entry>>, order: seq<i32>, eventId: i32, id: i32)
    requires forall i :: 0 <= i < |order| ==> order[i] in entries
    ensures id in IdsFor(entries, order, eventId) <==> id in order && entries[id].associatedId == eventId
  {
    if order != [] {
      var rest := order[..|order| - 1];
      IdsForExact(entries, rest, eventId, id);
      assert order == rest + [order[|order| - 1]];
    }
  }

  /** An event's list repeats no entry when the walk visits each entry once. */
  lemma {:induction false} IdsForNoDuplicates(entries: map<i32, AssociatedId<Entry>>, order: seq<i32>, eventId: i32)
    requires forall i :: 0 <= i < |order| ==> order[i] in entries
    requires NoDuplicates(order)
    ensures NoDuplicates(IdsFor(entries, order, eventId))
  {
    if order != [] {
      var last := order[|order| - 1];
      var rest := order[..|order| - 1];
      IdsForNoDuplicates(entries, rest, eventId);
      IdsForExact(entries, rest, eventId, last);
      assert last !in rest;
    }
  }

  /** How many entries the events `eventIds` receive altogether. */
  function CountFor(entries: map<i32, AssociatedId<Entry>>, order: seq<i32>, eventIds: seq<i32>): nat
    requires forall i :: 0 <= i < |order| ==> order[i] in entries
  {
    if eventIds == [] then 0
    else |IdsFor(entries, order, eventIds[0])| + CountFor(entries, order, eventIds[1..])
  }

  /** One more entry walked adds one to the event its id names and nothing to the others. */
  lemma {:induction false} CountForSnoc(entries: map<i32, AssociatedId<Entry>>, order: seq<i32>, id: i32, eventIds: seq<i32>)
    requires forall i :: 0 <= i < |order| ==> order[i] in entries
    requires id in entries
    requires NoDuplicates(eventIds)
    ensures CountFor(entries, order + [id], eventIds)
         == CountFor(entries, order, eventIds) + (if entries[id].associatedId in eventIds then 1 else 0)
  {
    if eventIds != [] {
      IdsForSnoc(entries, order, id, eventIds[0]);
      assert NoDuplicates(eventIds[1..]) by {
        forall i, j | 0 <= i < j < |eventIds[1..]| ensures eventIds[1..][i] != eventIds[1..][j] {
          assert eventIds[1..][i] == eventIds[i + 1] && eventIds[1..][j] == eventIds[j + 1];
        }
      }
      CountForSnoc(entries, order, id, eventIds[1..]);
      assert eventIds[0] !in eventIds[1..] by {
        forall i | 0 <= i < |eventIds[1..]| ensures eventIds[1..][i] != eventIds[0] {
          assert eventIds[1..][i] == eventIds[i + 1];
        }
      }
      assert entries[id].associatedId in eventIds
         <==> entries[id].associatedId == eventIds[0] || entries[id].associatedId in eventIds[1..];
    }
  }

  /**
   * Across all events, as many entries are placed as were walked: when every walked
   * entry's event is among `eventIds` and no event is counted twice, none is lost
   * and none is placed twice.
   */
  lemma {:induction false} CountForAll(entries: map<i32, AssociatedId<Entry>>, order: seq<i32>, eventIds: seq<i32>)
    requires forall i :: 0 <= i < |order| ==> order[i] in entries && entries[order[i]].associatedId in eventIds
    requires NoDuplicates(eventIds)
    ensures CountFor(entries, order, eventIds) == |order|
  {
    if order == [] {
      CountForEmpty(entries, eventIds);
    } else {
      var rest := order[..|order| - 1];
      CountForAll(entries, rest, eventIds);
      assert order == rest + [order[|order| - 1]];
      CountForSnoc(entries, rest, order[|order| - 1], eventIds);
    }
  }

  lemma {:induction false} CountForEmpty(entries: map<i32, AssociatedId<Entry>>, eventIds: seq<i32>)
    ensures CountFor(entries, [], eventIds) == 0
  {
    if eventIds != [] {
      CountForEmpty(entries, eventIds[1..]);
    }
  }

  // process_ballots

  /** Ballot `i` names entry-bearing ballot `id` and its entry is a known entry. */
  predicate Recorded(ballots: seq<Orm.Ballot>, entries: map<i32, AssociatedId<Entry>>, i: int, id: i32) {
    0 <= i < |ballots| && ballots[i].id == id && ballots[i].entry in entries
  }

  /**
   * The index `process_ballots` builds, ballot by ballot: a ballot whose entry is
   * unknown is skipped; the first time an id is seen its entry fills the first slot,
   * and every later time its entry overwrites the second.
   */
  function BallotIndex(ballots: seq<Orm.Ballot>, entries: map<i32, AssociatedId<Entry>>): map<i32, Ballot> {
    if ballots == [] then map[]
    else
      var index := BallotIndex(ballots[..|ballots| - 1], entries);
      var b := ballots[|ballots| - 1];
      if b.entry !in entries then index
      else if b.id in index then index[b.id := index[b.id].(second := Some(b.entry))]
      else index[b.id := Ballot(Some(b.entry), None)]
  }

  /** `process_ballots`, the loop that updates the index in place. */
  method ProcessBallots(ballots: seq<Orm.Ballot>, entries: map<i32, AssociatedId<Entry>>)
    returns (index: map<i32, Ballot>)
    ensures index == BallotIndex(ballots, entries)
  {
    index := map[];
    for i := 0 to |ballots|
      invariant index == BallotIndex(ballots[..i], entries)
    {
      var ballot := ballots[i];
      assert ballots[..i + 1][..i] == ballots[..i];
      if ballot.entry in entries {
        if ballot.id in index {
          index := index[ballot.id := index[ballot.id].(second := Some(ballot.entry))];
        } else {
          index := index[ballot.id := Ballot(Some(ballot.entry), None)];
        }
      }
    }
    assert ballots[..|ballots|] == ballots;
  }

  /** Some ballot with id `id` names a known entry. */
  ghost predicate AnyRecorded(ballots: seq<Orm.Ballot>, entries: map<i32, AssociatedId<Entry>>, id: i32) {
    exists i :: Recorded(ballots, entries, i, id)
  }

  /** At most one ballot with id `id` names a known entry. */
  ghost predicate RecordedOnce(ballots: seq<Orm.Ballot>, entries: map<i32, AssociatedId<Entry>>, id: i32) {
    forall i, j :: Recorded(ballots, entries, i, id) && Recorded(ballots, entries, j, id) ==> i == j
  }

  /** `entry` is named by the first ballot with id `id` that names a known entry. */
  ghost predicate FirstRecordedEntry(ballots: seq<Orm.Ballot>, entries: map<i32, AssociatedId<Entry>>, id: i32, entry: i32) {
    exists i :: Recorded(ballots, entries, i, id) && ballots[i].entry == entry
                && forall j :: 0 <= j < i ==> !Recorded(ballots, entries, j, id)
  }

  /** `entry` is named by the last ballot with id `id` that names a known entry. */
  ghost predicate LastRecordedEntry(ballots: seq<Orm.Ballot>, entries: map<i32, AssociatedId<Entry>>, id: i32, entry: i32) {
    exists i :: Recorded(ballots, entries, i, id) && ballots[i].entry == entry
                && forall j :: i < j < |ballots| ==> !Recorded(ballots, entries, j, id)
  }

  /**
   * What the index must hold for `id` after these ballots: a slot exactly when some
   * ballot with that id names a known entry; its first entry is that of the first such
   * ballot; its second is empty exactly when there was only one such ballot, and
   * otherwise is that of the last one.
   */
  ghost predicate SlotDescribes(ballots: seq<Orm.Ballot>, entries: map<i32, AssociatedId<Entry>>, id: i32, slot: Option<Ballot>) {
    && (slot.Some? <==> AnyRecorded(ballots, entries, id))
    && (slot.Some? ==> slot.value.first.Some? && FirstRecordedEntry(ballots, entries, id, slot.value.first.value))
    && (slot.Some? ==> (slot.value.second.None? <==> RecordedOnce(ballots, entries, id)))
    && (slot.Some? && slot.value.second.Some? ==> LastRecordedEntry(ballots, entries, id, slot.value.second.value))
  }

  function SlotOf(index: map<i32, Ballot>, id: i32): Option<Ballot> {
    if id in index then Some(index[id]) else None
  }

  lemma RecordedInPrefix(ballots: seq<Orm.Ballot>, entries: map<i32, AssociatedId<Entry>>, id: i32)
    requires ballots != []
    ensures forall i :: Recorded(ballots[..|ballots| - 1], entries, i, id)
                        <==> i < |ballots| - 1 && Recorded(ballots, entries, i, id)
  {
    var prefix := ballots[..|ballots| - 1];
    forall i ensures Recorded(prefix, entries, i, id) <==> i < |prefix| && Recorded(ballots, entries, i, id) {
      if 0 <= i < |prefix| {
        assert prefix[i] == ballots[i];
      }
    }
  }

  /** A ballot that does not count for `id` leaves what its slot must hold unchanged. */
  lemma SlotSkip(ballots: seq<Orm.Ballot>, entries: map<i32, AssociatedId<Entry>>, id: i32, slot: Option<Ballot>)
    requires ballots != [] && !Recorded(ballots, entries, |ballots| - 1, id)
    requires SlotDescribes(ballots[..|ballots| - 1], entries, id, slot)
    ensures SlotDescribes(ballots, entries, id, slot)
  {
    var n := |ballots| - 1;
    var prefix := ballots[..n];
    RecordedInPrefix(ballots, entries, id);
    assert forall i :: Recorded(ballots, entries, i, id) <==> Recorded(prefix, entries, i, id);
    assert AnyRecorded(ballots, entries, id) == AnyRecorded(prefix, entries, id);
    assert RecordedOnce(ballots, entries, id) == RecordedOnce(prefix, entries, id);
    if slot.Some? {
      var f :| Recorded(prefix, entries, f, id) && prefix[f].entry == slot.value.first.value
               && forall j :: 0 <= j < f ==> !Recorded(prefix, entries, j, id);
      assert Recorded(ballots, entries, f, id) && ballots[f] == prefix[f];
      assert FirstRecordedEntry(ballots, entries, id, slot.value.first.value);
      if slot.value.second.Some? {
        var l :| Recorded(prefix, entries, l, id) && prefix[l].entry == slot.value.second.value
                 && forall j :: l < j < n ==> !Recorded(prefix, entries, j, id);
        assert Recorded(ballots, entries, l, id) && ballots[l] == prefix[l];
        assert LastRecordedEntry(ballots, entries, id, slot.value.second.value);
      }
    }
  }

  /** The first ballot that counts for `id` opens its slot with only the first entry. */
  lemma SlotFirst(ballots: seq<Orm.Ballot>, entries: map<i32, AssociatedId<Entry>>, id: i32)
    requires ballots != [] && Recorded(ballots, entries, |ballots| - 1, id)
    requires !AnyRecorded(ballots[..|ballots| - 1], entries, id)
    ensures SlotDescribes(ballots, entries, id, Some(Ballot(Some(ballots[|ballots| - 1].entry), None)))
  {
    var n := |ballots| - 1;
    RecordedInPrefix(ballots, entries, id);
    assert forall j :: 0 <= j < n ==> !Recorded(ballots, entries, j, id);
    assert FirstRecordedEntry(ballots, entries, id, ballots[n].entry);
  }

  /** A later ballot that counts for `id` overwrites only the second entry of its slot. */
  lemma SlotLater(ballots: seq<Orm.Ballot>, entries: map<i32, AssociatedId<Entry>>, id: i32, slot: Ballot)
    requires ballots != [] && Recorded(ballots, entries, |ballots| - 1, id)
    requires SlotDescribes(ballots[..|ballots| - 1], entries, id, Some(slot))
    ensures SlotDescribes(ballots, entries, id, Some(slot.(second := Some(ballots[|ballots| - 1].entry))))
  {
    var n := |ballots| - 1;
    RecordedInPrefix(ballots, entries, id);
    var f :| Recorded(ballots[..n], entries, f, id) && ballots[..n][f].entry == slot.first.value
             && forall j :: 0 <= j < f ==> !Recorded(ballots[..n], entries, j, id);
    assert Recorded(ballots, entries, f, id) && f != n;
    assert FirstRecordedEntry(ballots, entries, id, slot.first.value);
    assert LastRecordedEntry(ballots, entries, id, ballots[n].entry);
  }

  /** Ballot by ballot, the index holds for every id what `SlotDescribes` says. */
  lemma {:induction false} BallotIndexSlots(ballots: seq<Orm.Ballot>, entries: map<i32, AssociatedId<Entry>>, id: i32)
    ensures SlotDescribes(ballots, entries, id, SlotOf(BallotIndex(ballots, entries), id))
  {
    if ballots != [] {
      var n := |ballots| - 1;
      var prefix := ballots[..n];
      BallotIndexSlots(prefix, entries, id);
      var index := BallotIndex(prefix, entries);
      if !Recorded(ballots, entries, n, id) {
        SlotSkip(ballots, entries, id, SlotOf(index, id));
      } else if id in index {
        SlotLater(ballots, entries, id, index[id]);
      } else {
        SlotFirst(ballots, entries, id);
      }
    }
  }

  // draining the events into the tournament

  /** `events.into_iter().map(|(_, e)| e).collect()`: the map's events, in the order of a walk of its keys. */
  method Drain(events: map<i32, Event>) returns (list: seq<Event>, ghost ids: seq<i32>)
    ensures IsOrdering(ids, events.Keys)
    ensures |list| == |ids| && forall i :: 0 <= i < |ids| ==> list[i] == events[ids[i]]
    ensures forall i :: 0 <= i < |list| ==> list[i] in events.Values
    ensures forall id :: id in events ==> events[id] in list
  {
    var remaining := events.Keys;
    list, ids := [], [];
    while remaining != {}
      invariant Walking(ids, remaining, events.Keys)
      invariant |list| == |ids| && forall i :: 0 <= i < |ids| ==> list[i] == events[ids[i]]
      decreases remaining
    {
      var id :| id in remaining;
      WalkStep(ids, remaining, events.Keys, id);
      list, ids := list + [events[id]], ids + [id];
      remaining := remaining - {id};
    }
    WalkDone(ids, events.Keys);
    forall id | id in events
      ensures events[id] in list
    {
      var i :| 0 <= i < |ids| && ids[i] == id;
      assert list[i] == events[id];
    }
  }

  /** Drained from a map that owns each event once, the list holds every event exactly once. */
  lemma DrainedExactlyOnce(events: map<i32, Event>, list: seq<Event>, ids: seq<i32>)
    requires Distinct(events)
    requires IsOrdering(ids, events.Keys)
    requires |list| == |ids| && forall i :: 0 <= i < |ids| ==> list[i] == events[ids[i]]
    ensures NoDuplicates(list)
    ensures forall ev :: ev in list <==> ev in events.Values
  {
    forall ev | ev in events.Values ensures ev in list {
      var k :| k in events && events[k] == ev;
      var i :| 0 <= i < |ids| && ids[i] == k;
      assert list[i] == ev;
    }
  }

  /** The number of entries the events hold altogether. */
  ghost function TotalEntries(list: seq<Event>): nat
    reads list
  {
    if list == [] then 0 else |list[0].entries| + TotalEntries(list[1..])
  }

  lemma {:induction false} TotalEntriesIsCount(entries: map<i32, AssociatedId<Entry>>, order: seq<i32>,
                                               list: seq<Event>, ids: seq<i32>)
    requires forall i :: 0 <= i < |order| ==> order[i] in entries
    requires |list| == |ids|
    requires forall i :: 0 <= i < |ids| ==> |list[i].entries| == |IdsFor(entries, order, ids[i])|
    ensures TotalEntries(list) == CountFor(entries, order, ids)
  {
    if list != [] {
      TotalEntriesIsCount(entries, order, list[1..], ids[1..]);
    }
  }

  /**
   * Drained after the join, the events form the tournament's list: one event per event
   * id, none twice, each with its own entries, and as many entries in all as there
   * are distinct entry ids.
   */
  lemma Assembled(events: map<i32, Event>, records: map<i32, Orm.Event>, entries: map<i32, AssociatedId<Entry>>,
                  entryOrder: seq<i32>, list: seq<Event>, eventOrder: seq<i32>)
    requires Distinct(events) && events.Keys == records.Keys
    requires EventIdsResolve(entries, events.Keys)
    requires IsOrdering(entryOrder, entries.Keys) && IsOrdering(eventOrder, events.Keys)
    requires forall id :: id in events ==>
      BuiltFrom(events[id], records[id]) && events[id].entries == Inners(entries, IdsFor(entries, entryOrder, id))
    requires |list| == |eventOrder| && forall i :: 0 <= i < |eventOrder| ==> list[i] == events[eventOrder[i]]
    ensures |list| == |records.Keys| && NoDuplicates(list)
    ensures forall i :: 0 <= i < |eventOrder| ==>
      BuiltFrom(list[i], records[eventOrder[i]])
      && list[i].entries == Inners(entries, IdsFor(entries, entryOrder, eventOrder[i]))
    ensures TotalEntries(list) == |entries.Keys|
  {
    DrainedExactlyOnce(events, list, eventOrder);
    OrderingSize(eventOrder, events.Keys);
    OrderingSize(entryOrder, entries.Keys);
    forall i | 0 <= i < |entryOrder|
      ensures entries[entryOrder[i]].associatedId in eventOrder
    {
      assert entryOrder[i] in entries;
    }
    CountForAll(entries, entryOrder, eventOrder);
    TotalEntriesIsCount(entries, entryOrder, list, eventOrder);
  }

  // process_api_impl

  /** The feed may be resolved: every entry's event id names one of its events. */
  predicate FeedResolves(api: Orm.TournamentResults) {
    EventIdsResolve(ProcessEntries(api.entries), EventRecords(api.events).Keys)
  }

  /**
   * `process_api_impl`: decode the feed, build the event and entry maps and the ballot
   * index, move every entry into its event, and drain the events into a tournament
   * whose name and dates come from the header. A decode error is returned before
   * anything is built. The decoder is a parameter; `ENDDATE` goes through the same
   * date decoder as `STARTDATE`.
   */
  method ProcessApiImpl(xml: string, deserializer: string -> Result<Orm.TournamentResults, Orm.DeError>)
    returns (r: Result<Tournament, Orm.DeError>, ghost entryOrder: seq<i32>, ghost eventOrder: seq<i32>)
    requires deserializer(xml).Ok? ==> FeedResolves(deserializer(xml).value)
    ensures deserializer(xml).Err? ==> r == Err(deserializer(xml).error)
    ensures deserializer(xml).Ok? && ParseDate(deserializer(xml).value.tourn.endDate).Err? ==>
      r == Err(Orm.Custom(ErrorText(ParseDate(deserializer(xml).value.tourn.endDate).error)))
    ensures deserializer(xml).Ok? && ParseDate(deserializer(xml).value.tourn.endDate).Ok? ==>
      var api := deserializer(xml).value;
      var entries := ProcessEntries(api.entries);
      var records := EventRecords(api.events);
      && r.Ok?
      && r.value.Name() == api.tourn.tournName
      && r.value.StartDate() == api.tourn.startDate
      && r.value.EndDate() == ParseDate(api.tourn.endDate).value
      && IsOrdering(entryOrder, entries.Keys)
      && IsOrdering(eventOrder, records.Keys)
      && |r.value.EventList()| == |eventOrder| == |records.Keys|
      && NoDuplicates(r.value.EventList())
      && (forall i :: 0 <= i < |eventOrder| ==>
            var ev := r.value.EventList()[i];
            && fresh(ev)
            && BuiltFrom(ev, records[eventOrder[i]])
            && ev.entries == Inners(entries, IdsFor(entries, entryOrder, eventOrder[i])))
      && TotalEntries(r.value.EventList()) == |entries.Keys|
  {
    entryOrder, eventOrder := [], [];
    var decoded := deserializer(xml);
    if decoded.Err? {
      return Err(decoded.error), entryOrder, eventOrder;
    }
    var api := decoded.value;
    var events := ProcessEvents(api.events);
    var entries := ProcessEntries(api.entries);
    var _ := ProcessBallots(api.ballots, entries);
    entryOrder := MoveEntries(events, entries);
    var list;
    list, eventOrder := Drain(events);
    Assembled(events, EventRecords(api.events), entries, entryOrder, list, eventOrder);
    var endDate := Orm.DeserializeDate(api.tourn.endDate);
    if endDate.Err? {
      return Err(endDate.error), entryOrder, eventOrder;
    }
    r := Ok(Tournament(api.tourn.tournName, list, api.tourn.startDate, endDate.value));
  }
}
