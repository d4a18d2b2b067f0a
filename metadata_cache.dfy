/**
 * The one-slot cache of ODataMetadataService.GetToolDescriptionAsync: the
 * last summary built and the time it was stored, kept for thirty minutes.
 *
 * Time is a parameter counted in DateTime ticks (100 ns), so the initial
 * `DateTime.MinValue` is tick 0. The HTTP fetch of `/odata/$metadata` is a
 * parameter too: what it would give if the call makes it.
 */
module MetadataCache {
  import opened Wrappers
  import opened MetadataSummary

  const TicksPerMinute: int := 600_000_000

  /** `TimeSpan.FromMinutes(30)`. */
  const CacheExpiration: int := 30 * TicksPerMinute

  /** `DateTime.MinValue`, the initial `_lastFetchTime`. */
  const DateTimeMinValue: int := 0

  /** What fetching the metadata document gives. */
  datatype FetchOutcome =
    | NonSuccessStatus(statusCode: int)   // a response whose status is not 2xx
    | FetchThrew(message: string)         // the request or reading the body threw
    | Fetched(metadata: MetadataDocument) // a 2xx response; its body as parsed

  /** The two fields of the service: `_cachedDescription` and `_lastFetchTime`. */
  datatype CacheSlot = CacheSlot(cachedDescription: Option<string>, lastFetchTime: int)

  /** The cached text may be served at time `now`. */
  predicate IsFresh(slot: CacheSlot, now: int) {
    slot.cachedDescription.Some? && now - slot.lastFetchTime < CacheExpiration
  }

  /** The answer of one call: the text returned, whether the metadata was fetched, and the slot afterwards. */
  datatype Lookup = Lookup(description: string, fetched: bool, slot: CacheSlot)

  /**
   * One call at time `now`; when it fetches and stores a summary, the
   * clock reads `completedAt` at that moment (the source reads it twice).
   */
  function CacheStep(slot: CacheSlot, now: int, fetch: FetchOutcome, completedAt: int): Lookup {
    if IsFresh(slot, now) then Lookup(slot.cachedDescription.value, false, slot)
    else
      match fetch
      case NonSuccessStatus(_) => Lookup(FallbackDescription, true, slot)
      case FetchThrew(_) => Lookup(FallbackDescription, true, slot)
      case Fetched(doc) =>
        var description := Describe(doc);
        Lookup(description, true, CacheSlot(Some(description), completedAt))
  }

  /** The slot only ever holds text the summariser produced. */
  ghost predicate HoldsSummary(slot: CacheSlot) {
    slot.cachedDescription.Some? ==> exists doc :: Describe(doc) == slot.cachedDescription.value
  }

  lemma CacheStepKeepsSummary(slot: CacheSlot, now: int, fetch: FetchOutcome, completedAt: int)
    requires HoldsSummary(slot)
    ensures HoldsSummary(CacheStep(slot, now, fetch, completedAt).slot)
  {
    if !IsFresh(slot, now) && fetch.Fetched? {
      assert Describe(fetch.metadata) == CacheStep(slot, now, fetch, completedAt).slot.cachedDescription.value;
    }
  }

  /** Every call returns text: the cached text, the fallback, or a fresh summary (which itself is the fallback when parsing fails). */
  lemma CacheStepAnswers(slot: CacheSlot, now: int, fetch: FetchOutcome, completedAt: int)
    ensures var r := CacheStep(slot, now, fetch, completedAt);
      || (!r.fetched && r.slot == slot && Some(r.description) == slot.cachedDescription)
      || (r.fetched && r.slot == slot && r.description == FallbackDescription)
      || (r.fetched && fetch.Fetched? && r.description == Describe(fetch.metadata)
          && r.slot == CacheSlot(Some(r.description), completedAt))
    ensures var r := CacheStep(slot, now, fetch, completedAt);
      r.fetched <==> !IsFresh(slot, now)
  {
  }

  /**
   * Two calls inside the window: once a call has stored a summary, every
   * call within thirty minutes of storing it returns that same text,
   * fetches nothing and leaves the slot as it is, whatever the upstream
   * would have answered.
   */
  lemma SecondCallWithinWindowHits(slot: CacheSlot, now1: int, doc: MetadataDocument, completedAt: int,
                                   now2: int, fetch2: FetchOutcome, completedAt2: int)
    requires !IsFresh(slot, now1)
    requires now2 - completedAt < CacheExpiration
    ensures var first := CacheStep(slot, now1, Fetched(doc), completedAt);
      CacheStep(first.slot, now2, fetch2, completedAt2) == Lookup(first.description, false, first.slot)
  {
  }

  /**
   * A failed fetch never touches the slot: it happens only when the slot
   * is not fresh, and then the answer is the fallback text.
   */
  lemma FailedFetchKeepsSlot(slot: CacheSlot, now: int, fetch: FetchOutcome, completedAt: int)
    requires !fetch.Fetched?
    ensures CacheStep(slot, now, fetch, completedAt).slot == slot
    ensures !IsFresh(slot, now) ==> CacheStep(slot, now, fetch, completedAt).description == FallbackDescription
  {
  }

  /** The service object holding the slot. */
  class ODataMetadataService {
    var cachedDescription: Option<string>
    var lastFetchTime: int

    constructor ()
      ensures Valid()
      ensures cachedDescription == None && lastFetchTime == DateTimeMinValue
    {
      cachedDescription := None;
      lastFetchTime := DateTimeMinValue;
    }

    function Slot(): CacheSlot
      reads this
    {
      CacheSlot(cachedDescription, lastFetchTime)
    }

    ghost predicate Valid()
      reads this
    {
      HoldsSummary(Slot())
    }

    /** GetToolDescriptionAsync at time `now`, the upstream answering `fetch`. */
    method GetToolDescriptionAsync(now: int, fetch: FetchOutcome, completedAt: int) returns (description: string, fetched: bool)
      requires Valid()
      modifies this
      ensures Valid()
      ensures Lookup(description, fetched, Slot()) == CacheStep(old(Slot()), now, fetch, completedAt)
      ensures IsFresh(old(Slot()), now) ==>
        Some(description) == old(cachedDescription) && !fetched && unchanged(this)
      ensures !IsFresh(old(Slot()), now) && !fetch.Fetched? ==>
        description == FallbackDescription && fetched && unchanged(this)
      ensures !IsFresh(old(Slot()), now) && fetch.Fetched? ==>
        description == Describe(fetch.metadata) && fetched &&
        cachedDescription == Some(description) && lastFetchTime == completedAt
    {
      CacheStepKeepsSummary(Slot(), now, fetch, completedAt);
      if cachedDescription.Some? && now - lastFetchTime < CacheExpiration {
        return cachedDescription.value, false;
      }
      fetched := true;
      match fetch
      case NonSuccessStatus(_) =>
        description := FallbackDescription;
      case FetchThrew(_) =>
        description := FallbackDescription;
      case Fetched(doc) =>
        description := ParseMetadataToDescription(doc);
        cachedDescription := Some(description);
        lastFetchTime := completedAt;
    }
  }
}
