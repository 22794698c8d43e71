/** A single event of a tournament and the classification of its type string. */
module Events {
  import opened Entries

  /**
   * The kind of an event. `Other` keeps the platform's own category string, so an
   * unknown category (congress, worlds, ...) is never lost.
   */
  datatype EventKind = Debate | Speech | Other(raw: string)

  /** `From<String> for EventKind`: exact, case-sensitive match on two words. */
  function KindFrom(s: string): (k: EventKind)
    ensures k == Debate <==> s == "debate"
    ensures k == Speech <==> s == "speech"
    ensures k.Other? <==> s != "debate" && s != "speech"
    ensures k.Other? ==> k.raw == s
  {
    match s
    case "debate" => Debate
    case "speech" => Speech
    case _ => Other(s)
  }

  /** The type string the feed uses for a kind. */
  function RawType(k: EventKind): string {
    match k
    case Debate => "debate"
    case Speech => "speech"
    case Other(s) => s
  }

  /** Classification loses nothing: the type string is recoverable from its kind. */
  lemma KindFromKeepsRaw(s: string)
    ensures RawType(KindFrom(s)) == s
  {
  }

  /**
   * Every kind the classification can produce is the classification of its own type
   * string; the two kinds it never produces are `Other("debate")` and `Other("speech")`.
   */
  lemma KindFromRawType(k: EventKind)
    ensures KindFrom(RawType(k)) == k <==> k != Other("debate") && k != Other("speech")
  {
  }

  /**
   * An event: its abbreviation, its name and its kind, fixed at construction, and the
   * entries it owns, which the resolver appends one by one.
   */
  class Event {
    const abbr: string
    const name: string
    const kind: EventKind
    var entries: seq<Entry>

    /** `Event::new`, with an empty collection of entries; the accessors give back its arguments. */
    constructor (abbr: string, name: string, kind: EventKind)
      ensures Abbr() == abbr && Name() == name && Kind() == kind
      ensures entries == []
    {
      this.abbr := abbr;
      this.name := name;
      this.kind := kind;
      entries := [];
    }

    function Name(): string {
      name
    }

    function Abbr(): string {
      abbr
    }

    function Kind(): EventKind {
      kind
    }

    /** Whether this is a debate event: exactly when the feed's type was "debate". */
    predicate IsDebate()
      ensures IsDebate() <==> RawType(kind) == "debate" && !kind.Other?
    {
      kind == Debate
    }

    /** Whether this is a speech event: exactly when the feed's type was "speech". */
    predicate IsSpeech()
      ensures IsSpeech() <==> RawType(kind) == "speech" && !kind.Other?
    {
      kind == Speech
    }

    /** Appends one entry; the event's own fields and its earlier entries are untouched. */
    method PushEntry(e: Entry)
      modifies this
      ensures entries == old(entries) + [e]
    {
      entries := entries + [e];
    }
  }

  /** No event is both a debate and a speech event. */
  lemma NotBothKinds(ev: Event)
    ensures !(ev.IsDebate() && ev.IsSpeech())
  {
  }
}
