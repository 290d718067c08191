/**
  The event data model of the dance-event listing: the zod schemas of
  schemas/event.ts as datatypes. Every `z.enum` becomes an enum datatype
  together with the literal strings it accepts; every `.optional()` field
  becomes an `Option`. The three variant schemas (party, workshop, concert)
  extend the base schema and narrow its `type` field to one literal; the
  TypeScript union `AnyEvent` of the three is the subset type `AnyEvent` below.
 */
module EventSchema {
  import opened Wrappers

  /** A zod `number`. The model never computes with one, it only passes it on,
      so an unbounded integer stands for it. */
  type Number = int

  // ---------------------------------------------------------------------------
  // Enumerations

  /** `type` of a price: "per-person" | "per-couple" | "group". */
  datatype PriceType = PerPerson | PerCouple | Group

  function PriceTypeLiteral(t: PriceType): string
  {
    match t
    case PerPerson => "per-person"
    case PerCouple => "per-couple"
    case Group => "group"
  }

  /** The strings the price-type enum accepts, and the value each one denotes. */
  function PriceTypeOf(s: string): (r: Option<PriceType>)
    ensures r.None? <==> s !in {"per-person", "per-couple", "group"}
    ensures r.Some? ==> PriceTypeLiteral(r.value) == s
  {
    if s == "per-person" then Some(PerPerson)
    else if s == "per-couple" then Some(PerCouple)
    else if s == "group" then Some(Group)
    else None
  }

  /** The discriminant of the base schema: "party" | "workshop" | "concert" | "festival". */
  datatype EventType = Party | Workshop | Concert | Festival

  function EventTypeLiteral(t: EventType): string
  {
    match t
    case Party => "party"
    case Workshop => "workshop"
    case Concert => "concert"
    case Festival => "festival"
  }

  /** The strings the base event-type enum accepts, and the value each one denotes. */
  function EventTypeOf(s: string): (r: Option<EventType>)
    ensures r.None? <==> s !in {"party", "workshop", "concert", "festival"}
    ensures r.Some? ==> EventTypeLiteral(r.value) == s
  {
    if s == "party" then Some(Party)
    else if s == "workshop" then Some(Workshop)
    else if s == "concert" then Some(Concert)
    else if s == "festival" then Some(Festival)
    else None
  }

  /** `status` of an event: "upcoming" | "ongoing" | "past". */
  datatype EventStatus = Upcoming | Ongoing | Past

  function EventStatusLiteral(s: EventStatus): string
  {
    match s
    case Upcoming => "upcoming"
    case Ongoing => "ongoing"
    case Past => "past"
  }

  /** The strings the status enum accepts, and the value each one denotes. */
  function EventStatusOf(s: string): (r: Option<EventStatus>)
    ensures r.None? <==> s !in {"upcoming", "ongoing", "past"}
    ensures r.Some? ==> EventStatusLiteral(r.value) == s
  {
    if s == "upcoming" then Some(Upcoming)
    else if s == "ongoing" then Some(Ongoing)
    else if s == "past" then Some(Past)
    else None
  }

  /** `level` of a workshop: "beginner" | "intermediate" | "advanced" | "all". */
  datatype WorkshopLevel = Beginner | Intermediate | Advanced | AllLevels

  function WorkshopLevelLiteral(l: WorkshopLevel): string
  {
    match l
    case Beginner => "beginner"
    case Intermediate => "intermediate"
    case Advanced => "advanced"
    case AllLevels => "all"
  }

  /** The strings the workshop-level enum accepts, and the value each one denotes. */
  function WorkshopLevelOf(s: string): (r: Option<WorkshopLevel>)
    ensures r.None? <==> s !in {"beginner", "intermediate", "advanced", "all"}
    ensures r.Some? ==> WorkshopLevelLiteral(r.value) == s
  {
    if s == "beginner" then Some(Beginner)
    else if s == "intermediate" then Some(Intermediate)
    else if s == "advanced" then Some(Advanced)
    else if s == "all" then Some(AllLevels)
    else None
  }

  // ---------------------------------------------------------------------------
  // Common sub-schemas

  datatype EventPrice = EventPrice(amount: Number, currency: string, priceType: Option<PriceType>)

  datatype EventScheduleItem = EventScheduleItem(time: string, activity: string, description: Option<string>)

  datatype Coordinates = Coordinates(lat: Number, lng: Number)

  datatype EventLocation = EventLocation(
    name: string,
    city: string,
    country: string,
    address: Option<string>,
    coordinates: Option<Coordinates>)

  /** A denormalised reference to the organizer, not the organizer record itself. */
  datatype EventOrganizer = EventOrganizer(id: string, name: string, image: string)

  /** Start and end instants, as ISO-formatted strings. */
  datatype EventDate = EventDate(start: string, end: string)

  datatype EventStats = EventStats(interested: Number, saves: Number)

  /** The fields every event carries (the base schema). */
  datatype BaseEvent = BaseEvent(
    id: string,
    name: string,
    eventType: EventType,
    date: EventDate,
    location: EventLocation,
    description: string,
    image: Option<string>,
    price: Option<EventPrice>,
    tags: seq<string>,
    status: EventStatus,
    artists: seq<string>,
    organizer: EventOrganizer,
    schedule: seq<EventScheduleItem>,
    stats: Option<EventStats>)

  // ---------------------------------------------------------------------------
  // Variants

  /** One named price tier of a workshop. */
  datatype WorkshopPrice = WorkshopPrice(name: string, amount: Number, currency: string, description: string)

  datatype Venue = Venue(capacity: Number, seating: bool)

  /** An event of one of the three variant schemas: the base fields plus the
      fields the variant adds. A workshop always carries a level and a list
      of price tiers; a concert may carry a venue; a party adds nothing. */
  datatype Event =
    | PartyEvent(base: BaseEvent)
    | WorkshopEvent(base: BaseEvent, level: WorkshopLevel, prices: seq<WorkshopPrice>)
    | ConcertEvent(base: BaseEvent, venue: Option<Venue>)
  {
    /** The literal each variant schema puts in place of the base enum. */
    function VariantType(): (t: EventType)
      ensures t != Festival
      ensures t == Party <==> PartyEvent?
      ensures t == Workshop <==> WorkshopEvent?
      ensures t == Concert <==> ConcertEvent?
    {
      match this
      case PartyEvent(_) => Party
      case WorkshopEvent(_, _, _) => Workshop
      case ConcertEvent(_, _) => Concert
    }

    /** The discriminant carried in the base fields is the variant's literal. */
    predicate DiscriminantMatches()
    {
      base.eventType == VariantType()
    }
  }

  /** The union of the three variant schemas: events whose discriminant
      agrees with their variant. */
  type AnyEvent = e: Event | e.DiscriminantMatches()
    witness PartyEvent(BaseEvent(
      "", "", Party, EventDate("", ""), EventLocation("", "", "", None, None), "",
      None, None, [], Upcoming, [], EventOrganizer("", "", ""), [], None))

  /** The string in an event's `type` field. It names the event's variant
      and is never "festival". */
  function Discriminant(e: AnyEvent): (r: string)
    ensures r == EventTypeLiteral(e.base.eventType)
    ensures r in {"party", "workshop", "concert"}
    ensures r == "workshop" <==> e.WorkshopEvent?
    ensures r == "party" <==> e.PartyEvent?
    ensures r == "concert" <==> e.ConcertEvent?
  {
    EventTypeLiteral(e.VariantType())
  }

  /** "festival" is a legal base-schema type, yet no variant accepts it: an
      event whose base says festival is never an `AnyEvent`. */
  lemma FestivalHasNoVariant(e: Event)
    requires e.base.eventType == Festival
    ensures !e.DiscriminantMatches()
  {
  }
}
