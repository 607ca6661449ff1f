# Ad entity: collections, comment lookup, average rating, slug

A Dafny model of the `Ad` entity of a classifieds and booking web application. An Ad
owns three collections of child objects: images, bookings and comments. Each
child holds a back-reference (`ad`) to the Ad it belongs to. The entity's methods
keep the two sides of each relation in step. It can look up the comment a user
wrote, compute the mean rating of its comments, and fill in its URL slug from its
title before it is stored.

Objects are modelled by identity. Children and ads are `newtype` identifiers. The
children's back-references and the comments' author and rating fields are maps in
a `Graph` record. A child that is missing from a back-reference map has a null
reference. Every operation is a pure function from a `State` (one Ad plus its
`Graph`) to a new `State`.

Files and modules:
- `options.dfy` (`Options`): the nullable value.
- `collection.dfy` (`ArrayCollection`): the ordered, identity-based collection. Membership is strict identity. `[]=` appends. `removeElement` deletes the first occurrence.
- `association.dfy` (`Association`): one bidirectional one-to-many relation. `Attach` is the shape shared by the three add methods and `Detach` is the shape shared by the three remove methods.
- `ad.dfy` (`AdEntity`): the Ad record, the constructor, the six add/remove methods, and the invariant they keep over any sequence of calls.
- `slug.dfy` (`AdSlug`): `initialiseSlug`, with the slug library as a function parameter.
- `comments.dfy` (`AdComments`): `getCommentFromAuthor` and `getAverageRatings`.

## Model

| member | source | states |
|---|---|---|
| ArrayCollection.IndexOf | src/Entity/Ad.php:284 | The position `removeElement` deletes is the first occurrence of the child. No earlier position holds it. |
| ArrayCollection.RemoveElement | src/Entity/Ad.php:283-284 | Removing a child deletes its first occurrence and keeps the other children in their order, so exactly one copy leaves the collection. A child that is not there leaves the collection unchanged. |
| ArrayCollection.AppendNoDuplicates | src/Entity/Ad.php:273-274 | Appending only when `contains` is false keeps a duplicate-free collection duplicate-free. |
| ArrayCollection.RemoveElementNoDuplicates | src/Entity/Ad.php:283-284 | On a duplicate-free collection, removal leaves it duplicate-free. No copy of the child remains, and every other member stays. |
| ArrayCollection.RemoveAppended | src/Entity/Ad.php:271-292 | Removing a child just appended to a collection that lacked it gives back the original collection, in its original order. |
| Association.Attach | src/Entity/Ad.php:271-279 | Adding a child already in the collection changes nothing at all, not even a stale back-reference. A new child is appended at the end and its back-reference is set to this Ad. No other child's back-reference changes. |
| Association.Detach | src/Entity/Ad.php:281-292 | Removing a present child deletes its first occurrence from the collection and keeps the other children in their order. Its back-reference becomes null only if it pointed to this Ad; otherwise the back-reference map is untouched. A child that is absent changes nothing. |
| Association.AttachWellFormed | src/Entity/Ad.php:271-279 | Adding keeps the collection duplicate-free and every member pointing back to this Ad. The added child ends up linked to this Ad. |
| Association.DetachWellFormed | src/Entity/Ad.php:281-292 | Removing keeps the collection duplicate-free and every member pointing back. The child is gone, all others remain, and a removed child's reference is null. |
| Association.AttachIdempotent | src/Entity/Ad.php:273 | A repeated add is idempotent. |
| Association.DetachAttach | src/Entity/Ad.php:271-292 | Remove undoes add for a child the Ad lacked. The collection is restored exactly, and the child is left with a null back-reference. |
| Association.DetachElsewhereKeepsPointsBack | src/Entity/Ad.php:285-288 | Another Ad's remove never breaks this Ad's back-references, because the reference is cleared only when it designates the remover. |
| Association.AttachElsewhereBreaksPointsBack | src/Entity/Ad.php:273-275 | Another Ad's add of a child this Ad holds re-points the child's reference. Consistency therefore holds per Ad, not across ads. |
| AdEntity.NewAd | src/Entity/Ad.php:89-94 | The constructor gives three empty collections with every other field null. That state satisfies the invariant whatever the surrounding objects are. |
| AdEntity.AddImage | src/Entity/Ad.php:271-279 | `addImage` changes only the image collection and image back-references, which change as `Association.Attach` states. |
| AdEntity.RemoveImage | src/Entity/Ad.php:281-292 | `removeImage` changes only the image collection and image back-references, which change as `Association.Detach` states. Bookings, comments and their references are untouched. |
| AdEntity.AddBooking | src/Entity/Ad.php:304-312 | `addBooking` changes only the booking collection and booking back-references, as `Association.Attach` states. |
| AdEntity.RemoveBooking | src/Entity/Ad.php:314-325 | `removeBooking` changes only the booking collection and booking back-references, as `Association.Detach` states. |
| AdEntity.AddComment | src/Entity/Ad.php:335-343 | `addComment` changes only the comment collection and comment back-references, as `Association.Attach` states. |
| AdEntity.RemoveComment | src/Entity/Ad.php:345-356 | `removeComment` changes only the comment collection and comment back-references, as `Association.Detach` states. |
| AdEntity.ApplyPreservesInvariant | src/Entity/Ad.php:271-356 | Each of the six methods keeps all three collections duplicate-free and pointing back to the Ad. |
| AdEntity.RunPreservesInvariant | src/Entity/Ad.php:271-356 | Any sequence of add/remove calls keeps that invariant. |
| AdEntity.ConstructedAdStaysConsistent | src/Entity/Ad.php:89-94 | Starting from the constructor, every Ad reached through the six add/remove methods has duplicate-free collections whose members all point back to it. |
| AdEntity.RepeatedAddIdempotent | src/Entity/Ad.php:271-343 | Calling `addImage`, `addBooking` or `addComment` twice with the same child gives the same state as calling it once. |
| AdEntity.AddImageElsewhereBreaksInvariant | src/Entity/Ad.php:271-279 | If a second Ad adds an image the first Ad holds, the first Ad no longer satisfies the invariant. |
| AdSlug.InitialiseSlug | src/Entity/Ad.php:103-111 | After the callback the slug is non-null. A slug that PHP `empty()` rejects (null, "" or "0") becomes `slugify(title)`. Any other slug leaves the Ad unchanged, and no field other than the slug ever changes. |
| AdSlug.InitialiseSlugIdempotent | src/Entity/Ad.php:99-111 | Running the callback twice (prePersist, then preUpdate) gives the same Ad as running it once. |
| AdSlug.SlugSurvivesTitleChange | src/Entity/Ad.php:104 | A slug that is not empty is never recomputed after the title changes. |
| AdSlug.EmptyLookingSlugFollowsTitle | src/Entity/Ad.php:104-107 | A slug the library returned as "" or "0" still counts as empty. The next update therefore recomputes it from the new title. |
| AdComments.CommentFromAuthor | src/Entity/Ad.php:119-129 | The result is null exactly when no comment has the user as author. Otherwise it is the first comment, in collection order, whose author is that user. |
| AdComments.CommentFromUniqueAuthor | src/Entity/Ad.php:113-129 | When the user wrote exactly one comment on the Ad, the lookup returns that comment. |
| AdComments.CommentFromAuthorAppend | src/Entity/Ad.php:119-129 | Appending a comment changes the lookup only for a user who had no comment yet. For that user it now finds the new comment if they wrote it. |
| AdComments.AverageRatings | src/Entity/Ad.php:131-147 | With no comments the average is 0. Otherwise the average times the comment count equals the sum of the ratings. |
| AdComments.SumRatingsPermutation | src/Entity/Ad.php:135-140 | The `array_reduce` sum of ratings does not depend on the order of the comments. |
| AdComments.AverageRatingsReorder | src/Entity/Ad.php:131-147 | Reordering the comments leaves the average unchanged. |
| AdComments.AverageRatingsBounds | src/Entity/Ad.php:131-147 | When every rating lies in [lo, hi] and there is at least one comment, the average lies in [lo, hi]. |

## Left out

- `getNotAvailableDays` (src/Entity/Ad.php:149-172): it builds `range(start timestamp, 86400)`, a countdown of about 1.7·10⁹ integers from the booking's start timestamp, and formats each one with `date()` and `DateTime`. The result depends on the time zone and has no contract worth stating.
- The slug library's transliteration is not modelled. `InitialiseSlug` takes it as an arbitrary deterministic function `string -> string`.
- AdSlug.InitialiseSlug: requires a non-null title whenever the slug is empty. A null title would reach the slug library's string-typed parameter, and what that does depends on the library and PHP versions.
- AdComments.AverageRatings: PHP divides integers into an `int` when the division is exact and into a `float` otherwise. The model uses exact rational division and does not model float rounding. The sum of ratings is an unbounded integer, so PHP's switch to a float when `array_reduce` passes `PHP_INT_MAX` is not modelled.
- Ratings are modelled as integers and every comment in the collection is assumed loaded with an author and a rating (`Loaded`).
- The Image, Booking and Comments entities are not part of this model. Their `setAd` and `getAd` are taken to be a plain write and a plain read of the `ad` field, which the back-reference maps in `Graph` represent. Every back-reference property rests on this.
- The float `price` field is not modelled. The other scalar fields are record fields, and their getters and setters are record reads and updates. `author` is not a declared, ORM-mapped property of the class: `getAuthor`/`setAuthor` use a dynamic property, which is never persisted and raises a PHP warning when read before it is set. The model keeps it as an ordinary field that starts null.
- `getImages`, `getBookings` and `getComments` return the live collection object. A caller that mutates it directly bypasses the `contains` check and `setAd` of the add/remove methods. The invariant (no duplicates, every child pointing back) is not claimed for such mutations.
- The validation annotations (title length 10 to 255, introduction length at least 100, unique title) are enforced by the validation framework and are not modelled.
- The ORM mapping, lifecycle-callback dispatch, orphan removal, persistence and serialization groups are framework behaviour and are not modelled.
- The schema migration (migrations/Version20210513150901.php) is declarative SQL with no logic, and is not modelled.
- The user controller (src/Controller/UserController.php) is HTTP routing, a repository fetch and JSON serialization, and is not modelled.
