/**
 * The testimonials marquee: the list is repeated so the scrolling track is
 * long enough to loop, and each card's alt text and attribution are derived
 * from the name and optional title.
 */
module TestimonialsMarquee {
  import opened Wrappers
  import opened Strings
  import opened Arithmetic

  datatype Testimonial = Testimonial(
    quote: Option<string>,
    name: string,
    title: Option<string>,
    href: Option<string>,
    imageUrl: Option<string>,
    praiseLine1: Option<string>,
    praiseLine2: Option<string>)

  /** Lists shorter than this are doubled before the track is built. */
  const SHORT_LIST: nat := 6

  /** `base`: a short list is repeated once. */
  function Base<T>(items: seq<T>): (base: seq<T>)
    ensures |items| < SHORT_LIST ==> base == items + items
    ensures |items| >= SHORT_LIST ==> base == items
  {
    if |items| < SHORT_LIST then items + items else items
  }

  /** `trackItems`, or None when nothing is rendered (no list, or an empty one). */
  function Track<T>(testimonials: Option<seq<T>>): (track: Option<seq<T>>)
    ensures track.None? <==> testimonials.None? || testimonials.value == []
    ensures track.Some? ==> track.value == Base(testimonials.value) + Base(testimonials.value)
  {
    match testimonials
    case None => None
    case Some(items) =>
      if |items| == 0 then None
      else
        var base := Base(items);
        Some(base + base)
  }

  /** The track holds four copies of a short list and two of a long one. */
  lemma TrackLength<T>(items: seq<T>)
    requires items != []
    ensures |Track(Some(items)).value| == if |items| < SHORT_LIST then 4 * |items| else 2 * |items|
  {
  }

  /** Position `i` of the track shows testimonial `i mod n`. */
  lemma TrackCycles<T>(items: seq<T>, i: int)
    requires items != [] && 0 <= i < |Track(Some(items)).value|
    ensures Track(Some(items)).value[i] == items[i % |items|]
  {
    var n := |items|;
    var track := Track(Some(items)).value;
    if n < SHORT_LIST {
      assert track == items + items + items + items;
    } else {
      assert track == items + items;
    }
    if i < n {
      ModInBlock(i, 0, n);
    } else if i < 2 * n {
      ModInBlock(i, 1, n);
      assert track[i] == items[i - n];
    } else if i < 3 * n {
      ModInBlock(i, 2, n);
      assert track[i] == items[i - 2 * n];
    } else {
      ModInBlock(i, 3, n);
      assert track[i] == items[i - 3 * n];
    }
  }

  /** `isAvatar`: a card uses the avatar layout exactly when it has a non-empty image URL. */
  function IsAvatar(t: Testimonial): (b: bool)
    ensures b <==> t.imageUrl.Some? && t.imageUrl.value != ""
  {
    Truthy(t.imageUrl)
  }

  /** What a card shows: an avatar card, or a quote card with its attribution line. */
  datatype CardContent =
    | AvatarCard(src: string, alt: string, name: string, title: Option<string>, praise: seq<string>)
    | QuoteCard(quote: Option<string>, attribution: string)

  /** The praise lines that are present, in order; the block is shown only when there is one. */
  function PraiseLines(t: Testimonial): (lines: seq<string>)
    ensures |lines| <= 2
    ensures forall k | 0 <= k < |lines| :: lines[k] != ""
    ensures lines == [] <==> !Truthy(t.praiseLine1) && !Truthy(t.praiseLine2)
    ensures Truthy(t.praiseLine1) ==> lines[0] == t.praiseLine1.value
    ensures Truthy(t.praiseLine2) ==> lines[|lines| - 1] == t.praiseLine2.value
  {
    (if Truthy(t.praiseLine1) then [t.praiseLine1.value] else [])
    + (if Truthy(t.praiseLine2) then [t.praiseLine2.value] else [])
  }

  /** The content of one card of the track. */
  function Card(t: Testimonial): (c: CardContent)
    ensures c.AvatarCard? <==> IsAvatar(t)
    ensures c.AvatarCard? ==> c.src == t.imageUrl.value && c.alt == AltText(t) && c.name == t.name
    ensures c.AvatarCard? ==> (c.title.Some? <==> Truthy(t.title)) && (c.title.Some? ==> c.title == t.title)
    ensures c.AvatarCard? ==> c.praise == PraiseLines(t)
    ensures c.QuoteCard? ==> c.attribution == Attribution(t)
    ensures c.QuoteCard? ==> (c.quote.Some? <==> Truthy(t.quote)) && (c.quote.Some? ==> c.quote == t.quote)
  {
    if IsAvatar(t) then
      AvatarCard(t.imageUrl.value, AltText(t), t.name, if Truthy(t.title) then t.title else None, PraiseLines(t))
    else
      QuoteCard(if Truthy(t.quote) then t.quote else None, Attribution(t))
  }

  /** The avatar's alt text: the name, followed by ` — title` when there is a title. */
  function AltText(t: Testimonial): (alt: string)
    ensures |alt| >= |t.name| && alt[..|t.name|] == t.name
    ensures Truthy(t.title) ==> alt == t.name + " — " + t.title.value
    ensures !Truthy(t.title) ==> alt == t.name
  {
    if Truthy(t.title) then t.name + " — " + t.title.value else t.name
  }

  /** The line under a quote card: `— name`, followed by `, title` when there is a title. */
  function Attribution(t: Testimonial): (line: string)
    ensures |line| >= 2 + |t.name| && line[..2] == "— " && line[2..2 + |t.name|] == t.name
    ensures Truthy(t.title) ==> line[2 + |t.name|..] == ", " + t.title.value
    ensures !Truthy(t.title) ==> |line| == 2 + |t.name|
  {
    "— " + t.name + (if Truthy(t.title) then ", " + t.title.value else "")
  }
}
