# Event model and feed-post projection

A Dafny model of the event data model of a dance-event listing application
and of the function that turns an event into a generic social-feed post
(`schemas/event.ts`).

- `wrappers.dfy` — `Option`, the model of an optional (`?` / `.optional()`) field.
- `event_schema.dfy` (module `EventSchema`) — the zod schemas as datatypes: price,
  schedule item, location, organizer reference, the base event, and the three
  variants party, workshop and concert. Every `z.enum` is an enum datatype with
  its literal strings and a recogniser stating exactly which strings the enum
  accepts. `AnyEvent` is the subset of events whose `type` field equals the
  literal of their variant; "festival", legal in the base enum, is the
  discriminant of none of them.
- `feed_post.dfy` (module `FeedPost`) — the `Post` shape the projection builds,
  the location line `"<venue>, <city>"` with its inverse (split at the first
  ", "), the projection `EventToFeedPost(e, now)`, and lemmas that pin it down:
  a relational description it is the unique solution of, and the exact set of
  fields two events must share to give the same post.

The wall clock the projection reads (`new Date().toISOString()`) is the
parameter `now`; the model only states that it is copied into `timestamp`.

## Model

| member | source | states |
|---|---|---|
| EventSchema.PriceTypeOf | schemas/event.ts:8 | the price-type enum accepts exactly "per-person", "per-couple", "group", and each accepted string is the literal of the value it yields |
| EventSchema.EventTypeOf | schemas/event.ts:40 | the base event-type enum accepts exactly "party", "workshop", "concert", "festival", each mapped to the value whose literal it is |
| EventSchema.EventStatusOf | schemas/event.ts:50 | the status enum accepts exactly "upcoming", "ongoing", "past", each mapped to the value whose literal it is |
| EventSchema.WorkshopLevelOf | schemas/event.ts:69 | the workshop-level enum accepts exactly "beginner", "intermediate", "advanced", "all", each mapped to the value whose literal it is |
| EventSchema.Event.VariantType | schemas/event.ts:63-88 | each variant schema narrows `type` to its own literal: party, workshop or concert for the matching variant, never festival |
| EventSchema.Discriminant | schemas/event.ts:99 | the `type` string of any event of the union equals the literal of its base type, is one of "party", "workshop", "concert", and names the event's variant in both directions |
| EventSchema.FestivalHasNoVariant | schemas/event.ts:40-99 | an event whose base type is festival (a value the base enum accepts) matches no variant |
| FeedPost.FormatLocation | schemas/event.ts:115 | the content location starts with the venue name, continues with ", ", ends with the city, and has length of name plus city plus two |
| FeedPost.SeparatorIndex | schemas/event.ts:115 | finds the first ", " of a line (none exactly when the line holds none); the search the inverse of the location line relies on |
| FeedPost.FirstSeparatorOfFormatted | schemas/event.ts:115 | in a formatted location line whose name holds no ", ", the first separator sits right after the name |
| FeedPost.SplitFormatted | schemas/event.ts:115 | splitting a formatted location line gives back venue name and city when the name holds no ", " |
| FeedPost.FormatSplit | schemas/event.ts:115 | a line splits exactly when it holds a ", ", and formatting the parts of a split gives back the line |
| FeedPost.FormatLocationAmbiguous | schemas/event.ts:115 | two different (name, city) pairs can give the same location line, so the location line alone does not determine the venue name; the post does, through the city in `author.location` |
| FeedPost.MilongaHallPost | schemas/event.ts:108-115 | an event at "Milonga Hall", Buenos Aires, Argentina is posted with location line "Milonga Hall, Buenos Aires" and author location "Buenos Aires" |
| FeedPost.PerPersonPricePost | schemas/event.ts:116-119 | an event priced 15 EUR per person is posted with price 15 EUR and no price type |
| FeedPost.PostPriceOf | schemas/event.ts:116-119 | the post price is absent exactly when the event price is absent, and otherwise carries the event's amount and currency only |
| FeedPost.EventToFeedPost | schemas/event.ts:102-128 | post type "event"; author is the organizer's id, name and image with the city as location; title, description, image and start date copied; location line is the venue name, then ", ", then the city; price present iff present with amount and currency; tags unchanged; timestamp is `now`; stats all zero |
| FeedPost.FeedPostCharacterization | schemas/event.ts:102-128 | a post satisfies the field-by-field description of an event's post exactly when it is the projection's result, so the projection is the one post the description admits |
| FeedPost.SamePostIffProjectedFieldsAgree | schemas/event.ts:102-128 | two events give the same post at the same instant if and only if they agree on organizer, venue name, city, name, description, image, start date, price amount and currency, and tags; every other field is dropped |
| FeedPost.VariantIrrelevant | schemas/event.ts:99-128 | a party, workshop or concert with the same base fields gives the same post |
| FeedPost.StatsNotCarried | schemas/event.ts:54-59 | replacing an event's own stats, present or absent, leaves it a valid event and does not change its post |

## Left out

- `data/mockOrganizers.ts`: static seed records handed to a validator (`validateOrganizers`) whose schema is not part of this model, so the organizer catalog is not modelled.
- Zod's runtime parsing of untyped objects: how `.default(0)` fills missing stats counters, how unknown keys are stripped, and how validation issues are collected and reported. The schemas are modelled as the datatypes and enum recognisers they describe; an event of the model is already well-typed.
- Numbers (`amount`, `lat`/`lng`, `capacity`, the stats counters) are JavaScript floating-point numbers; they are only passed through, so the model uses unbounded integers and does no arithmetic on them. The stats counters are plain numbers in the schema, with no lower bound, and the model keeps them unconstrained.
- The wall clock: `timestamp` is the parameter `now`; ISO formatting of the current instant is not modelled.
- The `Post` type itself is declared in another file that is not part of this model; its shape here is the one the projection builds, and nothing is claimed about other producers of posts.
- JavaScript distinguishes a missing key from a key holding `undefined`; the projection always writes the `image` and `price` keys, possibly as `undefined`. Both are modelled as `None`.
- Dates and image references are opaque strings; the schema does not check their format and neither does the model.
