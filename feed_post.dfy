/**
  The projection of an event into a generic social-feed post
  (`eventToFeedPost` in schemas/event.ts). The `Post` type is declared
  elsewhere in the application; its shape here is the one the projection
  builds. The wall clock the projection reads becomes the parameter `now`.
 */
module FeedPost {
  import opened Wrappers
  import opened EventSchema

  // ---------------------------------------------------------------------------
  // The post

  datatype PostAuthor = PostAuthor(id: string, name: string, image: string, location: string)

  datatype PostPrice = PostPrice(amount: Number, currency: string)

  datatype PostContent = PostContent(
    title: string,
    description: string,
    image: Option<string>,
    date: string,
    location: string,
    price: Option<PostPrice>,
    tags: seq<string>)

  datatype PostStats = PostStats(interested: Number, comments: Number, bookmarks: Number)

  datatype Post = Post(
    postType: string,
    author: PostAuthor,
    content: PostContent,
    timestamp: string,
    stats: PostStats)

  /** The counters every projected post starts with. */
  const ZeroStats := PostStats(0, 0, 0)

  // ---------------------------------------------------------------------------
  // The location line: "<venue name>, <city>"

  const Separator := ", "

  /** A ", " starts at index `j` of `s`. */
  predicate SeparatorAt(s: string, j: int)
  {
    0 <= j && j + 2 <= |s| && s[j] == ',' && s[j + 1] == ' '
  }

  predicate ContainsSeparator(s: string)
  {
    exists j :: 0 <= j < |s| && SeparatorAt(s, j)
  }

  /** The venue name and the city joined by a comma and a space: the line
      starts with the name, ends with the city, and is two characters longer
      than both together. */
  function FormatLocation(name: string, city: string): (r: string)
    ensures |r| == |name| + |city| + 2
    ensures r[..|name|] == name
    ensures SeparatorAt(r, |name|)
    ensures r[|name| + 2..] == city
  {
    name + Separator + city
  }

  /** The index of the first ", " in `s`, if there is one. */
  function SeparatorIndex(s: string): (r: Option<nat>)
    ensures r.None? <==> !ContainsSeparator(s)
    ensures r.Some? ==> SeparatorAt(s, r.value)
    ensures r.Some? ==> forall j :: 0 <= j < r.value ==> !SeparatorAt(s, j)
  {
    if |s| < 2 then None
    else if s[0] == ',' && s[1] == ' ' then assert SeparatorAt(s, 0); Some(0)
    else
      var rest := SeparatorIndex(s[1..]);
      assert forall j :: 1 <= j ==> (SeparatorAt(s, j) <==> SeparatorAt(s[1..], j - 1));
      match rest
      case None => None
      case Some(i) => assert SeparatorAt(s, i + 1); Some(i + 1)
  }

  /** Reads a location line back into venue name and city, splitting at the
      first ", ". The inverse of `FormatLocation` on names without ", ". */
  function SplitLocation(s: string): (r: Option<(string, string)>)
  {
    match SeparatorIndex(s)
    case None => None
    case Some(i) => Some((s[..i], s[i + 2..]))
  }

  /** In a formatted line whose name holds no ", ", the first separator is
      the one the formatting inserted. */
  lemma FirstSeparatorOfFormatted(name: string, city: string)
    requires !ContainsSeparator(name)
    ensures SeparatorIndex(FormatLocation(name, city)) == Some(|name|)
  {
    var s := FormatLocation(name, city);
    forall j | 0 <= j < |name|
      ensures !SeparatorAt(s, j)
    {
      if j + 1 < |name| {
        assert s[j] == name[j] && s[j + 1] == name[j + 1];
        assert !SeparatorAt(name, j);
      } else {
        assert s[j + 1] == ',';
      }
    }
    var r := SeparatorIndex(s);
    assert r.Some?;
    assert !(r.value < |name|);
    assert !(|name| < r.value);
  }

  /** Formatting then splitting gives back the name and the city, provided
      the name holds no ", ". */
  lemma SplitFormatted(name: string, city: string)
    requires !ContainsSeparator(name)
    ensures SplitLocation(FormatLocation(name, city)) == Some((name, city))
  {
    FirstSeparatorOfFormatted(name, city);
  }

  /** Splitting then formatting gives back the line, and the name part never
      holds a ", "; a line splits exactly when it holds a ", ". */
  lemma FormatSplit(s: string)
    ensures SplitLocation(s).None? <==> !ContainsSeparator(s)
    ensures SplitLocation(s).Some? ==>
              && FormatLocation(SplitLocation(s).value.0, SplitLocation(s).value.1) == s
              && !ContainsSeparator(SplitLocation(s).value.0)
  {
    var r := SeparatorIndex(s);
    if r.Some? {
      var i := r.value;
      var name, city := s[..i], s[i + 2..];
      assert s == name + Separator + city;
      forall j | SeparatorAt(name, j)
        ensures false
      {
        assert SeparatorAt(s, j);
      }
    }
  }

  /** The location line cannot always be read back: a comma-space inside the
      venue name is indistinguishable from the separator. */
  lemma FormatLocationAmbiguous()
    ensures FormatLocation("Club, Room 2", "Berlin") == FormatLocation("Club", "Room 2, Berlin")
  {
  }

  // ---------------------------------------------------------------------------
  // The projection

  /** `event.price && { amount, currency }`: the figures of the price, with
      its per-person/per-couple/group type dropped; absent when absent. */
  function PostPriceOf(price: Option<EventPrice>): (r: Option<PostPrice>)
    ensures r.None? <==> price.None?
    ensures r.Some? ==> r.value.amount == price.value.amount && r.value.currency == price.value.currency
  {
    match price
    case None => None
    case Some(p) => Some(PostPrice(p.amount, p.currency))
  }

  /** The feed post for an event, stamped with the instant `now`. */
  function EventToFeedPost(e: AnyEvent, now: string): (p: Post)
    ensures p.postType == "event"
    ensures p.stats == ZeroStats
    ensures p.timestamp == now
    ensures p.author.id == e.base.organizer.id && p.author.name == e.base.organizer.name
    ensures p.author.image == e.base.organizer.image
    ensures p.author.location == e.base.location.city
    ensures p.content.title == e.base.name && p.content.description == e.base.description
    ensures p.content.image == e.base.image
    ensures p.content.date == e.base.date.start
    ensures |p.content.location| == |e.base.location.name| + |e.base.location.city| + 2
    ensures p.content.location[..|e.base.location.name|] == e.base.location.name
    ensures SeparatorAt(p.content.location, |e.base.location.name|)
    ensures p.content.location[|e.base.location.name| + 2..] == e.base.location.city
    ensures p.content.price.None? <==> e.base.price.None?
    ensures p.content.price.Some? ==>
              p.content.price.value == PostPrice(e.base.price.value.amount, e.base.price.value.currency)
    ensures p.content.tags == e.base.tags
  {
    var b := e.base;
    Post(
      "event",
      PostAuthor(b.organizer.id, b.organizer.name, b.organizer.image, b.location.city),
      PostContent(
        b.name,
        b.description,
        b.image,
        b.date.start,
        FormatLocation(b.location.name, b.location.city),
        PostPriceOf(b.price),
        b.tags),
      now,
      ZeroStats)
  }

  // ---------------------------------------------------------------------------
  // Properties of the projection

  /** A field-by-field description of the post that belongs to an event, with
      the location line given by its parts rather than by concatenation. */
  predicate IsFeedPostOf(e: Event, now: string, p: Post)
  {
    var b := e.base;
    var loc := p.content.location;
    var n := |b.location.name|;
    && p.postType == "event"
    && p.author == PostAuthor(b.organizer.id, b.organizer.name, b.organizer.image, b.location.city)
    && p.content.title == b.name
    && p.content.description == b.description
    && p.content.image == b.image
    && p.content.date == b.date.start
    && |loc| == n + 2 + |b.location.city|
    && loc[..n] == b.location.name
    && SeparatorAt(loc, n)
    && loc[n + 2..] == b.location.city
    && (match b.price
        case None => p.content.price == None
        case Some(pr) => p.content.price == Some(PostPrice(pr.amount, pr.currency)))
    && p.content.tags == b.tags
    && p.timestamp == now
    && p.stats == ZeroStats
  }

  /** The projection produces exactly the post the description admits. */
  lemma FeedPostCharacterization(e: AnyEvent, now: string, p: Post)
    ensures IsFeedPostOf(e, now, p) <==> p == EventToFeedPost(e, now)
  {
  }

  /** The base fields the projection reads, compared between two events. */
  predicate AgreeOnProjectedFields(a: BaseEvent, b: BaseEvent)
  {
    && a.organizer == b.organizer
    && a.location.name == b.location.name
    && a.location.city == b.location.city
    && a.name == b.name
    && a.description == b.description
    && a.image == b.image
    && a.date.start == b.date.start
    && a.price.None? == b.price.None?
    && (a.price.Some? ==>
          a.price.value.amount == b.price.value.amount && a.price.value.currency == b.price.value.currency)
    && a.tags == b.tags
  }

  /** Two events give the same post, at the same instant, exactly when they
      agree on the fields the projection reads. Everything else (the id, the
      end date, country, address and coordinates, the price type, status,
      artists, schedule, stats and the variant's own fields) is dropped. */
  lemma SamePostIffProjectedFieldsAgree(e1: AnyEvent, e2: AnyEvent, now: string)
    ensures EventToFeedPost(e1, now) == EventToFeedPost(e2, now)
            <==> AgreeOnProjectedFields(e1.base, e2.base)
  {
  }

  /** The projection reads only base fields: a party, a workshop and a
      concert with the same base fields give the same post. */
  lemma VariantIrrelevant(e1: AnyEvent, e2: AnyEvent, now: string)
    requires e1.base == e2.base
    ensures EventToFeedPost(e1, now) == EventToFeedPost(e2, now)
  {
  }

  /** The event's own interest and save counters never reach the post. */
  lemma StatsNotCarried(e: AnyEvent, stats: Option<EventStats>, now: string)
    ensures e.(base := e.base.(stats := stats)).DiscriminantMatches()
    ensures EventToFeedPost(e.(base := e.base.(stats := stats)), now) == EventToFeedPost(e, now)
  {
  }

  /** An event at "Milonga Hall" in Buenos Aires, Argentina, is posted with
      the location line "Milonga Hall, Buenos Aires"; the country is dropped. */
  lemma MilongaHallPost(e: AnyEvent, now: string)
    requires e.base.location.name == "Milonga Hall"
    requires e.base.location.city == "Buenos Aires"
    requires e.base.location.country == "Argentina"
    ensures EventToFeedPost(e, now).content.location == "Milonga Hall, Buenos Aires"
    ensures EventToFeedPost(e, now).author.location == "Buenos Aires"
  {
  }

  /** A price of 15 EUR per person is posted as 15 EUR, without its type. */
  lemma PerPersonPricePost(e: AnyEvent, now: string)
    requires e.base.price == Some(EventPrice(15, "EUR", Some(PerPerson)))
    ensures EventToFeedPost(e, now).content.price == Some(PostPrice(15, "EUR"))
  {
  }
}
