/** The watchlist of `useWatchlist` (src/hooks/useWatchlist.ts): a set of market ids that
    each operation replaces with an updated copy. */
module Watchlist {

  /** The set after `next.add(id)`. */
  function Added(s: set<string>, id: string): set<string> { s + {id} }

  /** The set after `next.delete(id)`. */
  function Removed(s: set<string>, id: string): set<string> { s - {id} }

  /** The set after `toggleWatchlist(id)`: deleted when present, added otherwise. */
  function Toggled(s: set<string>, id: string): set<string>
  {
    if id in s then Removed(s, id) else Added(s, id)
  }

  /** The state of the hook: `watchlist`. */
  class WatchlistState {
    var watched: set<string>

    /** `useState<Set<string>>(new Set())`. */
    constructor()
      ensures watched == {}
    {
      watched := {};
    }

    /** `addToWatchlist`. */
    method Add(marketId: string)
      modifies this
      ensures watched == Added(old(watched), marketId)
      ensures IsWatched(marketId)
    {
      var next := watched;
      next := next + {marketId};
      watched := next;
    }

    /** `removeFromWatchlist`. */
    method Remove(marketId: string)
      modifies this
      ensures watched == Removed(old(watched), marketId)
      ensures !IsWatched(marketId)
    {
      var next := watched;
      next := next - {marketId};
      watched := next;
    }

    /** `toggleWatchlist`. */
    method Toggle(marketId: string)
      modifies this
      ensures watched == Toggled(old(watched), marketId)
      ensures IsWatched(marketId) <==> !old(IsWatched(marketId))
    {
      var next := watched;
      if marketId in next {
        next := next - {marketId};
      } else {
        next := next + {marketId};
      }
      watched := next;
    }

    /** `isWatched`. */
    predicate IsWatched(marketId: string)
      reads this
    {
      marketId in watched
    }

    /** `clearWatchlist`. */
    method Clear()
      modifies this
      ensures watched == {}
      ensures forall id :: !IsWatched(id)
    {
      watched := {};
    }

    /** `watchlistCount`: the number of watched ids. */
    function Count(): (n: nat)
      reads this
      ensures n == 0 <==> watched == {}
    {
      |watched|
    }
  }

  /** Toggling flips the membership of its id and keeps every other id as it was. */
  lemma ToggledFlips(s: set<string>, id: string, other: string)
    ensures id in Toggled(s, id) <==> id !in s
    ensures other != id ==> (other in Toggled(s, id) <==> other in s)
  {
  }

  /** Toggling the same id twice restores the set. */
  lemma ToggledTwice(s: set<string>, id: string)
    ensures Toggled(Toggled(s, id), id) == s
  {
  }

  /** Adding is idempotent and leaves the id watched. */
  lemma AddedIdempotent(s: set<string>, id: string)
    ensures Added(Added(s, id), id) == Added(s, id)
    ensures id in Added(s, id)
  {
  }

  /** Removing leaves the id unwatched, and removing an absent id changes nothing. */
  lemma RemovedAbsent(s: set<string>, id: string)
    ensures id !in Removed(s, id)
    ensures id !in s ==> Removed(s, id) == s
  {
  }

  /** Toggling changes the count by exactly one. */
  lemma ToggledCount(s: set<string>, id: string)
    ensures |Toggled(s, id)| == if id in s then |s| - 1 else |s| + 1
  {
  }
}
