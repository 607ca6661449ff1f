/**
 * `initialiseSlug`, the lifecycle callback run before an Ad is first stored and
 * before every update. The slug library is a parameter: any deterministic
 * function from a title to a slug.
 */
module AdSlug {
  import opened Options
  import opened AdEntity

  /** PHP `empty()` on the slug field: null, the empty string and "0" are all empty. */
  predicate IsEmpty(slug: Option<string>) {
    slug.None? || slug.value == "" || slug.value == "0"
  }

  /**
   * Fills the slug from the title when, and only when, it is empty; nothing
   * else in the Ad changes. An Ad whose slug is empty must have a title: what
   * the slug library does with a null title depends on its version.
   */
  function InitialiseSlug(ad: Ad, slugify: string -> string): (r: Ad)
    requires IsEmpty(ad.slug) ==> ad.title.Some?
    ensures r.slug.Some?
    ensures !IsEmpty(ad.slug) ==> r == ad
    ensures IsEmpty(ad.slug) ==> r.slug == Some(slugify(ad.title.value))
    ensures r.(slug := ad.slug) == ad
  {
    if IsEmpty(ad.slug) then ad.(slug := Some(slugify(ad.title.value))) else ad
  }

  /** Running the callback a second time gives the same Ad as running it once. */
  lemma InitialiseSlugIdempotent(ad: Ad, slugify: string -> string)
    requires IsEmpty(ad.slug) ==> ad.title.Some?
    ensures InitialiseSlug(InitialiseSlug(ad, slugify), slugify) == InitialiseSlug(ad, slugify)
  {
  }

  /**
   * A slug that PHP does not consider empty survives any later change of the
   * title: the callback never recomputes it.
   */
  lemma SlugSurvivesTitleChange(ad: Ad, slugify: string -> string, title: string)
    requires IsEmpty(ad.slug) ==> ad.title.Some?
    requires !IsEmpty(InitialiseSlug(ad, slugify).slug)
    ensures InitialiseSlug(InitialiseSlug(ad, slugify).(title := Some(title)), slugify).slug
         == InitialiseSlug(ad, slugify).slug
  {
  }

  /**
   * A slug the library returned as "" or "0" still counts as empty, so the
   * next update recomputes it from whatever the title has become.
   */
  lemma EmptyLookingSlugFollowsTitle(ad: Ad, slugify: string -> string, title: string)
    requires IsEmpty(ad.slug) && ad.title.Some?
    requires slugify(ad.title.value) in {"", "0"}
    ensures InitialiseSlug(InitialiseSlug(ad, slugify).(title := Some(title)), slugify).slug
         == Some(slugify(title))
  {
  }
}
