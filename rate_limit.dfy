/** The per-client sliding-window rate limiter of the API: each client
    (an opaque identifier) has a list of the times of its recent requests;
    a request is allowed when fewer than ten of them lie within the last
    sixty seconds. */
module RateLimit {
  import opened Seqs

  const RateLimitRequests := 10
  const RateLimitWindow: real := 60.0

  /** A timestamp `t` still counts at time `now`. */
  predicate InWindow(now: real, t: real) { now - t < RateLimitWindow }

  /** The client's timestamps that still count at `now`, in order. */
  function Prune(stamps: seq<real>, now: real): seq<real>
  {
    Filter(stamps, t => InWindow(now, t))
  }

  /** The list a client has: a client never seen before has none. */
  function Stamps(storage: map<string, seq<real>>, client: string): seq<real>
  {
    if client in storage then storage[client] else []
  }

  lemma PruneMembers(stamps: seq<real>, now: real)
    ensures forall t :: t in Prune(stamps, now) <==> t in stamps && InWindow(now, t)
  {
    FilterMembers(stamps, t => InWindow(now, t));
  }

  /** Pruning twice at the same time changes nothing more. */
  lemma PruneIdempotent(stamps: seq<real>, now: real)
    ensures Prune(Prune(stamps, now), now) == Prune(stamps, now)
  {
    var kept := Prune(stamps, now);
    PruneMembers(stamps, now);
    assert forall i :: 0 <= i < |kept| ==> kept[i] in kept;
    FilterKeepsAll(kept, t => InWindow(now, t));
  }

  /** A later prune keeps no more than an earlier one. */
  lemma {:induction false} PruneLater(stamps: seq<real>, now1: real, now2: real)
    requires now1 <= now2
    ensures |Prune(stamps, now2)| <= |Prune(stamps, now1)|
  {
    if stamps != [] {
      PruneLater(stamps[..|stamps| - 1], now1, now2);
    }
  }

  class RateLimiter {
    /** The request times of each client seen so far, oldest first. */
    var storage: map<string, seq<real>>

    /** No client has more than the allowed number of stored requests. */
    ghost predicate Valid()
      reads this
    {
      forall c :: c in storage ==> |storage[c]| <= RateLimitRequests
    }

    constructor()
      ensures Valid()
      ensures storage == map[]
    {
      storage := map[];
    }

    /** Prunes the client's list to the current window, then allows the
        request, recording `now`, when fewer than the limit remain. */
    method Check(client: string, now: real) returns (allowed: bool)
      requires Valid()
      modifies this
      ensures Valid()
      ensures allowed <==> |Prune(Stamps(old(storage), client), now)| < RateLimitRequests
      ensures allowed ==> storage == old(storage)[client := Prune(Stamps(old(storage), client), now) + [now]]
      ensures !allowed ==> storage == old(storage)[client := Prune(Stamps(old(storage), client), now)]
      ensures forall t :: t in storage[client] ==> InWindow(now, t)
    {
      var stamps := Stamps(storage, client);
      var kept := Prune(stamps, now);
      PruneMembers(stamps, now);
      FilterIsSubsequence(stamps, t => InWindow(now, t));
      storage := storage[client := kept];
      if |kept| >= RateLimitRequests {
        return false;
      }
      storage := storage[client := kept + [now]];
      return true;
    }
  }
}
