/**
  The player registry page: a status filter over the roster and the sold
  and unsold tallies shown on its buttons.
 */
module Roster {
  import opened AuctionTypes
  import opened Sequences

  /** The three filter buttons. */
  datatype StatusFilter = All | Only(status: Status)

  /** The players with status `st`, in roster order. */
  function WithStatus(players: seq<Player>, st: Status): (r: seq<Player>)
    ensures forall i :: 0 <= i < |r| ==> r[i].status == st
    ensures forall p :: p in r <==> p in players && p.status == st
    ensures forall p :: multiset(r)[p] == if p.status == st then multiset(players)[p] else 0
    ensures IsSubsequence(r, players)
  {
    FilterIsSubsequence(players, (p: Player) => p.status == st);
    Filter(players, (p: Player) => p.status == st)
  }

  /** The players the page lists under a filter. */
  function Shown(players: seq<Player>, f: StatusFilter): (r: seq<Player>)
    ensures f == All ==> r == players
    ensures f.Only? ==> forall p :: p in r <==> p in players && p.status == f.status
    ensures f.Only? ==> forall p :: multiset(r)[p] == if p.status == f.status then multiset(players)[p] else 0
    ensures IsSubsequence(r, players)
  {
    match f
    case All => IsSubsequenceOfSelf(players); players
    case Only(st) => WithStatus(players, st)
  }

  /** The figures on the Sold and Unsold buttons. */
  datatype Tally = Tally(sold: nat, unsold: nat)

  function Count(players: seq<Player>): (t: Tally)
    ensures t.sold == |Shown(players, Only(Sold))|
    ensures t.unsold == |Shown(players, Only(Unsold))|
    ensures t.sold + t.unsold == |players|
  {
    StatusSplit(players);
    Tally(|WithStatus(players, Sold)|, |WithStatus(players, Unsold)|)
  }

  /** Sold and unsold lists split the roster: together they hold every player exactly once. */
  lemma StatusSplit(players: seq<Player>)
    ensures multiset(WithStatus(players, Sold)) + multiset(WithStatus(players, Unsold)) == multiset(players)
    ensures |WithStatus(players, Sold)| + |WithStatus(players, Unsold)| == |players|
  {
    FilterPartition(players, (p: Player) => p.status == Sold, (p: Player) => p.status == Unsold);
  }

  /** Applying a filter to its own output changes nothing. */
  lemma ShownIdempotent(players: seq<Player>, f: StatusFilter)
    ensures Shown(Shown(players, f), f) == Shown(players, f)
  {
    if f.Only? {
      FilterIdempotent(players, (p: Player) => p.status == f.status);
    }
  }
}
