/** The visitor registry: one rate limiter and a last-seen time per client
    IP, created on first sight (`getVisitor`) and dropped by the periodic
    sweep once idle for more than three minutes (`cleanupVisitors`). Each
    operation is one step taken while holding the registry's mutex. Time is
    an integer count of nanoseconds, like Go's `time.Duration`. */
module Visitors {

  const Second: int := 1_000_000_000
  const Minute: int := 60 * Second

  /** Entries idle for longer than this are swept away. */
  const IdleLimit: int := 3 * Minute
  /** A new limiter gains one token per this interval ... */
  const RefillInterval: int := 15 * Second
  /** ... and holds at most this many. */
  const Burst: int := 20

  /** A `*rate.Limiter`: an opaque handle (standing for the pointer's
      identity) with the parameters it was created with. */
  datatype Limiter = Limiter(handle: nat, interval: int, burst: int)

  datatype Visitor = Visitor(limiter: Limiter, lastSeen: int)

  /** The `visitors` map, plus the handle the next new limiter will get. */
  datatype Registry = Registry(visitors: map<string, Visitor>, nextHandle: nat)

  /** What `getVisitor` leaves behind and hands back. */
  datatype Acquired = Acquired(registry: Registry, limiter: Limiter)

  /** Every stored limiter was handed out before `nextHandle`, and no two
      clients share a limiter. */
  ghost predicate Valid(r: Registry)
  {
    && (forall ip :: ip in r.visitors ==> r.visitors[ip].limiter.handle < r.nextHandle)
    && (forall a, b :: a in r.visitors && b in r.visitors && a != b ==>
          r.visitors[a].limiter.handle != r.visitors[b].limiter.handle)
  }

  predicate Fresh(l: Limiter)
  {
    l.interval == RefillInterval && l.burst == Burst
  }

  /** `getVisitor(ip)` at time `now`. */
  function GetVisitor(r: Registry, ip: string, now: int): (a: Acquired)
    // the client is registered and marked as seen now
    ensures ip in a.registry.visitors
    ensures a.registry.visitors[ip] == Visitor(a.limiter, now)
    ensures a.registry.visitors.Keys == r.visitors.Keys + {ip}
    // nobody else is touched
    ensures forall other :: other in r.visitors && other != ip ==>
              a.registry.visitors[other] == r.visitors[other]
    // a known client keeps its limiter
    ensures ip in r.visitors ==> a.limiter == r.visitors[ip].limiter
    ensures ip in r.visitors ==> a.registry.nextHandle == r.nextHandle
    // an unknown client gets a new limiter: burst 20, one token per 15 s
    ensures ip !in r.visitors ==> Fresh(a.limiter)
    ensures ip !in r.visitors ==>
              a.limiter.handle == r.nextHandle && a.registry.nextHandle == r.nextHandle + 1
  {
    if ip !in r.visitors then
      var limiter := Limiter(r.nextHandle, RefillInterval, Burst);
      Acquired(Registry(r.visitors[ip := Visitor(limiter, now)], r.nextHandle + 1), limiter)
    else
      var v := r.visitors[ip];
      Acquired(r.(visitors := r.visitors[ip := v.(lastSeen := now)]), v.limiter)
  }

  predicate Idle(v: Visitor, now: int)
  {
    now - v.lastSeen > IdleLimit
  }

  /** The visitors one sweep at time `now` keeps. */
  function Sweep(visitors: map<string, Visitor>, now: int): (kept: map<string, Visitor>)
    ensures forall ip :: ip in kept <==> ip in visitors && !Idle(visitors[ip], now)
    ensures forall ip :: ip in kept ==> kept[ip] == visitors[ip]
  {
    map ip | ip in visitors && !Idle(visitors[ip], now) :: visitors[ip]
  }

  /** The body of one iteration of `cleanupVisitors`: walk over every entry
      and delete the idle ones. */
  method CleanupVisitors(r: Registry, now: int) returns (swept: Registry)
    ensures swept.visitors == Sweep(r.visitors, now)
    ensures swept.nextHandle == r.nextHandle
  {
    var m := r.visitors;
    var pending := r.visitors.Keys;
    while pending != {}
      invariant pending <= r.visitors.Keys
      invariant forall ip :: ip in m <==> ip in r.visitors && (ip in pending || !Idle(r.visitors[ip], now))
      invariant forall ip :: ip in m ==> m[ip] == r.visitors[ip]
      decreases pending
    {
      var ip :| ip in pending;
      if Idle(m[ip], now) {
        m := m - {ip};
      }
      pending := pending - {ip};
    }
    swept := r.(visitors := m);
  }

  /** One block run under the registry's mutex: a request's `getVisitor`, or
      one sweep of `cleanupVisitors`. The lock serialises them, so any
      concurrent run is some sequence of these. */
  datatype Locked = Acquire(ip: string, at: int) | Cleanup(at: int)

  function Apply(r: Registry, step: Locked): Registry
  {
    match step
    case Acquire(ip, at) => GetVisitor(r, ip, at).registry
    case Cleanup(at) => r.(visitors := Sweep(r.visitors, at))
  }

  function Replay(r: Registry, steps: seq<Locked>): Registry
    decreases |steps|
  {
    if |steps| == 0 then r else Replay(Apply(r, steps[0]), steps[1..])
  }

  /** Whatever order requests and sweeps take the lock in, every IP keeps its
      own limiter, no two IPs share one, and the handle counter never goes
      back. */
  lemma {:induction false} ReplayPreservesValid(r: Registry, steps: seq<Locked>)
    requires Valid(r)
    ensures Valid(Replay(r, steps))
    ensures Replay(r, steps).nextHandle >= r.nextHandle
    decreases |steps|
  {
    if |steps| > 0 {
      match steps[0] {
        case Acquire(ip, at) => GetVisitorPreservesValid(r, ip, at);
        case Cleanup(at) => SweepPreservesValid(r, at);
      }
      ReplayPreservesValid(Apply(r, steps[0]), steps[1..]);
    }
  }

  /** A second sweep at the same instant removes nothing more. */
  lemma SweepIdempotent(visitors: map<string, Visitor>, now: int)
    ensures Sweep(Sweep(visitors, now), now) == Sweep(visitors, now)
  {
  }

  /** A sweep never breaks the registry's handle discipline. */
  lemma SweepPreservesValid(r: Registry, now: int)
    requires Valid(r)
    ensures Valid(r.(visitors := Sweep(r.visitors, now)))
  {
  }

  /** `getVisitor` keeps the handle discipline, and a client seen for the
      first time never receives a limiter another client already holds. */
  lemma GetVisitorPreservesValid(r: Registry, ip: string, now: int)
    requires Valid(r)
    ensures Valid(GetVisitor(r, ip, now).registry)
    ensures ip !in r.visitors ==> forall other :: other in r.visitors ==>
              r.visitors[other].limiter != GetVisitor(r, ip, now).limiter
  {
  }

  /** A client seen at `seen` survives every sweep up to three minutes
      later, with its limiter intact. */
  lemma RecentVisitorSurvives(r: Registry, ip: string, seen: int, now: int)
    requires seen <= now <= seen + IdleLimit
    ensures var a := GetVisitor(r, ip, seen);
            ip in Sweep(a.registry.visitors, now)
            && Sweep(a.registry.visitors, now)[ip].limiter == a.limiter
  {
  }

  /** Once a sweep has evicted a client, its next request starts over with
      a new limiter, not the one it had before. */
  lemma EvictionResetsLimiter(r: Registry, ip: string, now: int, later: int)
    requires Valid(r)
    requires ip in r.visitors && Idle(r.visitors[ip], now)
    ensures var a := GetVisitor(r.(visitors := Sweep(r.visitors, now)), ip, later);
            Fresh(a.limiter) && a.limiter != r.visitors[ip].limiter
  {
  }

}
