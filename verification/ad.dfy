/**
 * The Ad entity: its scalar fields, its three child collections (images,
 * bookings, comments) and the add/remove methods that keep each collection in
 * step with the children's back-references.
 *
 * Objects are modelled by identity. `AdId` stands for the identity of the PHP
 * object (what `===` compares), not for its database key, which stays null
 * until the object is persisted.
 */
module AdEntity {
  import opened Options
  import opened Association

  newtype AdId = x: int | 0 <= x
  newtype UserId = x: int | 0 <= x
  newtype ImageId = x: int | 0 <= x
  newtype BookingId = x: int | 0 <= x
  newtype CommentId = x: int | 0 <= x

  /** The fields of a Comments object the Ad reads: its author and its rating. */
  datatype CommentData = CommentData(author: Option<UserId>, rating: int)

  /**
   * An Ad. Fields PHP leaves uninitialised until a setter runs are `Option`s;
   * `key` is the generated database id. The float price is not modelled.
   */
  datatype Ad = Ad(
    id: AdId,
    key: Option<nat>,
    title: Option<string>,
    slug: Option<string>,
    introduction: Option<string>,
    content: Option<string>,
    coverImage: Option<string>,
    author: Option<UserId>,
    images: seq<ImageId>,
    bookings: seq<BookingId>,
    comments: seq<CommentId>)

  /**
   * The objects around the ads: the `ad` back-reference of every image,
   * booking and comment (a child missing from a map has a null reference),
   * and the author and rating of every loaded comment.
   */
  datatype Graph = Graph(
    imageAd: map<ImageId, Option<AdId>>,
    bookingAd: map<BookingId, Option<AdId>>,
    commentAd: map<CommentId, Option<AdId>>,
    comments: map<CommentId, CommentData>)

  /** One Ad together with the objects it is linked to. */
  datatype State = State(ad: Ad, graph: Graph)

  function ImageSide(s: State): OneToMany<ImageId, AdId> {
    OneToMany(s.ad.images, s.graph.imageAd)
  }

  function BookingSide(s: State): OneToMany<BookingId, AdId> {
    OneToMany(s.ad.bookings, s.graph.bookingAd)
  }

  function CommentSide(s: State): OneToMany<CommentId, AdId> {
    OneToMany(s.ad.comments, s.graph.commentAd)
  }

  /**
   * The invariant the add/remove methods keep: no collection holds a child
   * twice, and every child in a collection refers back to this Ad.
   */
  predicate Invariant(s: State) {
    && WellFormed(ImageSide(s), s.ad.id)
    && WellFormed(BookingSide(s), s.ad.id)
    && WellFormed(CommentSide(s), s.ad.id)
  }

  /** `__construct`: three empty collections, every other field still null. */
  function NewAd(id: AdId): (ad: Ad)
    ensures ad.id == id
    ensures ad.images == [] && ad.bookings == [] && ad.comments == []
    ensures ad.key.None? && ad.title.None? && ad.slug.None? && ad.author.None?
    ensures ad.introduction.None? && ad.content.None? && ad.coverImage.None?
    ensures forall g :: Invariant(State(ad, g))
  {
    Ad(id, None, None, None, None, None, None, None, [], [], [])
  }

  /** `addImage`: only the image collection and image back-references change. */
  function AddImage(s: State, image: ImageId): (r: State)
    ensures r.ad == s.ad.(images := r.ad.images)
    ensures r.graph == s.graph.(imageAd := r.graph.imageAd)
    ensures ImageSide(r) == Attach(ImageSide(s), s.ad.id, image)
  {
    var side := Attach(ImageSide(s), s.ad.id, image);
    State(s.ad.(images := side.items), s.graph.(imageAd := side.owner))
  }

  /** `removeImage`: only the image collection and image back-references change. */
  function RemoveImage(s: State, image: ImageId): (r: State)
    ensures r.ad == s.ad.(images := r.ad.images)
    ensures r.graph == s.graph.(imageAd := r.graph.imageAd)
    ensures ImageSide(r) == Detach(ImageSide(s), s.ad.id, image)
  {
    var side := Detach(ImageSide(s), s.ad.id, image);
    State(s.ad.(images := side.items), s.graph.(imageAd := side.owner))
  }

  /** `addBooking`: only the booking collection and booking back-references change. */
  function AddBooking(s: State, booking: BookingId): (r: State)
    ensures r.ad == s.ad.(bookings := r.ad.bookings)
    ensures r.graph == s.graph.(bookingAd := r.graph.bookingAd)
    ensures BookingSide(r) == Attach(BookingSide(s), s.ad.id, booking)
  {
    var side := Attach(BookingSide(s), s.ad.id, booking);
    State(s.ad.(bookings := side.items), s.graph.(bookingAd := side.owner))
  }

  /** `removeBooking`: only the booking collection and booking back-references change. */
  function RemoveBooking(s: State, booking: BookingId): (r: State)
    ensures r.ad == s.ad.(bookings := r.ad.bookings)
    ensures r.graph == s.graph.(bookingAd := r.graph.bookingAd)
    ensures BookingSide(r) == Detach(BookingSide(s), s.ad.id, booking)
  {
    var side := Detach(BookingSide(s), s.ad.id, booking);
    State(s.ad.(bookings := side.items), s.graph.(bookingAd := side.owner))
  }

  /** `addComment`: only the comment collection and comment back-references change. */
  function AddComment(s: State, comment: CommentId): (r: State)
    ensures r.ad == s.ad.(comments := r.ad.comments)
    ensures r.graph == s.graph.(commentAd := r.graph.commentAd)
    ensures CommentSide(r) == Attach(CommentSide(s), s.ad.id, comment)
  {
    var side := Attach(CommentSide(s), s.ad.id, comment);
    State(s.ad.(comments := side.items), s.graph.(commentAd := side.owner))
  }

  /** `removeComment`: only the comment collection and comment back-references change. */
  function RemoveComment(s: State, comment: CommentId): (r: State)
    ensures r.ad == s.ad.(comments := r.ad.comments)
    ensures r.graph == s.graph.(commentAd := r.graph.commentAd)
    ensures CommentSide(r) == Detach(CommentSide(s), s.ad.id, comment)
  {
    var side := Detach(CommentSide(s), s.ad.id, comment);
    State(s.ad.(comments := side.items), s.graph.(commentAd := side.owner))
  }

  /** A call of one of the six collection methods on the Ad. */
  datatype Call =
    | AddImageCall(image: ImageId)
    | RemoveImageCall(image: ImageId)
    | AddBookingCall(booking: BookingId)
    | RemoveBookingCall(booking: BookingId)
    | AddCommentCall(comment: CommentId)
    | RemoveCommentCall(comment: CommentId)

  function Apply(s: State, call: Call): State {
    match call
    case AddImageCall(i) => AddImage(s, i)
    case RemoveImageCall(i) => RemoveImage(s, i)
    case AddBookingCall(b) => AddBooking(s, b)
    case RemoveBookingCall(b) => RemoveBooking(s, b)
    case AddCommentCall(c) => AddComment(s, c)
    case RemoveCommentCall(c) => RemoveComment(s, c)
  }

  /** The state after a sequence of calls, in order. */
  function Run(s: State, calls: seq<Call>): State
    decreases |calls|
  {
    if |calls| == 0 then s else Run(Apply(s, calls[0]), calls[1..])
  }

  /** Each of the six methods keeps the invariant. */
  lemma ApplyPreservesInvariant(s: State, call: Call)
    requires Invariant(s)
    ensures Invariant(Apply(s, call))
  {
    var r := Apply(s, call);
    match call
    case AddImageCall(i) =>
      AttachWellFormed(ImageSide(s), s.ad.id, i);
      assert BookingSide(r) == BookingSide(s) && CommentSide(r) == CommentSide(s);
    case RemoveImageCall(i) =>
      DetachWellFormed(ImageSide(s), s.ad.id, i);
      assert BookingSide(r) == BookingSide(s) && CommentSide(r) == CommentSide(s);
    case AddBookingCall(b) =>
      AttachWellFormed(BookingSide(s), s.ad.id, b);
      assert ImageSide(r) == ImageSide(s) && CommentSide(r) == CommentSide(s);
    case RemoveBookingCall(b) =>
      DetachWellFormed(BookingSide(s), s.ad.id, b);
      assert ImageSide(r) == ImageSide(s) && CommentSide(r) == CommentSide(s);
    case AddCommentCall(c) =>
      AttachWellFormed(CommentSide(s), s.ad.id, c);
      assert ImageSide(r) == ImageSide(s) && BookingSide(r) == BookingSide(s);
    case RemoveCommentCall(c) =>
      DetachWellFormed(CommentSide(s), s.ad.id, c);
      assert ImageSide(r) == ImageSide(s) && BookingSide(r) == BookingSide(s);
  }

  /** Any sequence of calls keeps the invariant. */
  lemma {:induction false} RunPreservesInvariant(s: State, calls: seq<Call>)
    requires Invariant(s)
    ensures Invariant(Run(s, calls))
    decreases |calls|
  {
    if |calls| > 0 {
      ApplyPreservesInvariant(s, calls[0]);
      RunPreservesInvariant(Apply(s, calls[0]), calls[1..]);
    }
  }

  /**
   * Starting from the constructor's empty collections, whatever the
   * back-references of the surrounding objects, every sequence of add/remove
   * calls leaves the collections duplicate-free and pointing back to the Ad.
   */
  lemma ConstructedAdStaysConsistent(id: AdId, g: Graph, calls: seq<Call>)
    ensures Invariant(Run(State(NewAd(id), g), calls))
  {
    RunPreservesInvariant(State(NewAd(id), g), calls);
  }

  /** Repeating any of the three add methods with the same child changes nothing more. */
  lemma RepeatedAddIdempotent(s: State, call: Call)
    requires call.AddImageCall? || call.AddBookingCall? || call.AddCommentCall?
    ensures Apply(Apply(s, call), call) == Apply(s, call)
  {
    match call
    case AddImageCall(i) => AttachIdempotent(ImageSide(s), s.ad.id, i);
    case AddBookingCall(b) => AttachIdempotent(BookingSide(s), s.ad.id, b);
    case AddCommentCall(c) => AttachIdempotent(CommentSide(s), s.ad.id, c);
  }

  /**
   * Another Ad adding an image this Ad holds re-points the image's
   * back-reference, so this Ad no longer satisfies the invariant.
   */
  lemma AddImageElsewhereBreaksInvariant(mine: State, other: State, image: ImageId)
    requires Invariant(mine) && other.graph == mine.graph
    requires mine.ad.id != other.ad.id
    requires image in mine.ad.images && image !in other.ad.images
    ensures !Invariant(State(mine.ad, AddImage(other, image).graph))
  {
    AttachElsewhereBreaksPointsBack(mine.ad.images, ImageSide(other), mine.ad.id, other.ad.id, image);
    assert ImageSide(State(mine.ad, AddImage(other, image).graph))
      == OneToMany(mine.ad.images, Attach(ImageSide(other), other.ad.id, image).owner);
  }
}
