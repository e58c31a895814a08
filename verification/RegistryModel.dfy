/** The vocabulary of the venue registry: its clock, its bounds, its adapters and what it watches. */
module RegistryModel {
  import opened Prelude

  /** Instants of the monotonic clock. */
  type Time = nat

  type Caller = string
  type Venue = string

  /** A receipt at the venue that issued it. */
  datatype Ref = Ref(venue: Venue, receipt: Bytes)

  datatype Status = Pending | Open | Fulfilled | Cancelled | Expired
  {
    predicate Terminal() { Fulfilled? || Cancelled? || Expired? }
  }

  /** `horizon` is the last instant the clock can represent: a deadline past it is no deadline. */
  datatype Limits = Limits(maxCharges: nat, window: nat, maxEntries: nat, grace: nat, horizon: Time)

  predicate Built(limits: Limits) {
    0 < limits.maxCharges <= U32_MAX && 0 < limits.maxEntries
  }

  datatype SubmitQuota = SubmitQuota(maxCharges: nat, window: nat)
  datatype WatchLimit = WatchLimit(maxEntries: nat, expiry: nat, grace: nat)

  /** `build`: a zero budget or cap is clamped to one; the window and an explicit grace survive. */
  function Build(quota: SubmitQuota, watch: WatchLimit, horizon: Time): (limits: Limits)
    requires quota.maxCharges <= U32_MAX
    ensures Built(limits)
    ensures limits.window == quota.window && limits.grace == watch.grace && limits.horizon == horizon
    ensures quota.maxCharges > 0 ==> limits.maxCharges == quota.maxCharges
    ensures watch.maxEntries > 0 ==> limits.maxEntries == watch.maxEntries
    ensures limits.maxCharges <= quota.maxCharges + 1 && limits.maxEntries <= watch.maxEntries + 1
  {
    var max := (a: nat, b: nat) => if a < b then b else a;
    Limits(max(quota.maxCharges, 1), quota.window, max(watch.maxEntries, 1), watch.grace, horizon)
  }

  // --- Installed adapters ---

  type SlotId = nat

  datatype Installed = Installed(slot: SlotId, alive: bool)

  datatype VenueError = UnknownVenue | Unavailable | RateLimited | DuplicateVenue

  /** The slot of a live adapter; an unknown and a dead one fail apart. */
  function Resolve(adapters: map<Venue, Installed>, venue: Venue): (r: Result<SlotId, VenueError>)
    ensures r.Ok? <==> venue in adapters && adapters[venue].alive
    ensures r.Ok? ==> r.value == adapters[venue].slot
    ensures r == Err(UnknownVenue) <==> venue !in adapters
    ensures r == Err(Unavailable) <==> venue in adapters && !adapters[venue].alive
  {
    if venue !in adapters then Err(UnknownVenue)
    else if !adapters[venue].alive then Err(Unavailable)
    else Ok(adapters[venue].slot)
  }

  /** `register`: a live incumbent is kept, a dead one replaced by what is handed in, alive or not. */
  function Install(adapters: map<Venue, Installed>, venue: Venue, installed: Installed): map<Venue, Installed> {
    if Resolve(adapters, venue).Ok? then adapters else adapters[venue := installed]
  }

  /** The adapter map as the source keeps it. */
  class Directory {
    var adapters: map<Venue, Installed>

    constructor ()
      ensures adapters == map[]
    {
      adapters := map[];
    }

    method Register(venue: Venue, installed: Installed) returns (r: Result<(), VenueError>)
      modifies this
      ensures r == if Resolve(old(adapters), venue).Ok? then Err(DuplicateVenue) else Ok(())
      ensures adapters == Install(old(adapters), venue, installed)
      ensures r.Err? ==> adapters == old(adapters)
      ensures r.Ok? ==> Resolve(adapters, venue) == if installed.alive then Ok(installed.slot) else Err(Unavailable)
      ensures forall v :: v != venue ==> Resolve(adapters, v) == old(Resolve(adapters, v))
    {
      if venue in adapters {
        if adapters[venue].alive {
          return Err(DuplicateVenue);
        }
      }
      adapters := adapters[venue := installed];
      r := Ok(());
    }
  }
}
