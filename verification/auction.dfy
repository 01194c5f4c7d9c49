/**
  The live-auction session: which player is up, the running bid, the
  leading team and each team's last bid on the current player. The page
  moves it on three events; a sale's celebration delay is folded into the
  sale, so selling and moving on are one step here.
 */
module Auction {
  import opened JsValues
  import opened AuctionTypes

  /** Each bid raises the running bid by this fixed amount. */
  const BidIncrement: int := 500000

  datatype Session = Session(
    index: nat,
    currentBid: Num,
    leadingTeam: Option<string>,
    teamBids: map<string, Num>)

  datatype Event = PlaceBid(team: string) | ConfirmSold | ConfirmUnsold

  /** The page's players and teams together with the session that runs over them. */
  datatype Room = Room(players: seq<Player>, teams: seq<Team>, session: Session)

  /** A team id as a JavaScript condition: null and "" are falsy. */
  predicate LeaderPresent(leader: Option<string>)
  {
    leader.Some? && leader.value != ""
  }

  /**
    The bids recorded against a player with base price `base`. With an
    integer base, every recorded bid is at least one increment above the
    base, sits on the increment grid, and only the leader holds the running
    bid; with a NaN base every figure stays NaN.
   */
  predicate BidsConsistent(base: Num, s: Session)
  {
    match base
    case NaN =>
      && s.currentBid.NaN?
      && forall t :: t in s.teamBids ==> s.teamBids[t].NaN?
    case Int(b) =>
      && s.currentBid.Int?
      && b <= s.currentBid.v
      && (s.currentBid.v - b) % BidIncrement == 0
      && forall t :: t in s.teamBids ==>
           && s.teamBids[t].Int?
           && b + BidIncrement <= s.teamBids[t].v <= s.currentBid.v
           && (s.teamBids[t].v - b) % BidIncrement == 0
           && (s.leadingTeam != Some(t) ==> s.teamBids[t].v < s.currentBid.v)
  }

  /** The session invariant over a fixed player list. */
  predicate Valid(players: seq<Player>, s: Session)
  {
    && s.index < |players|
    && (s.leadingTeam.None? <==> s.teamBids == map[])
    && (s.leadingTeam.Some? ==>
          s.leadingTeam.value in s.teamBids && s.teamBids[s.leadingTeam.value] == s.currentBid)
    && BidsConsistent(players[s.index].basePrice, s)
  }

  /** The session a page load starts from: first player, base price, no bids. */
  function Init(players: seq<Player>): (s: Session)
    requires |players| > 0
    ensures s.index == 0 && s.currentBid == players[0].basePrice
    ensures s.leadingTeam == None && s.teamBids == map[]
    ensures Valid(players, s)
  {
    Session(0, players[0].basePrice, None, map[])
  }

  /** A bid by `team`: one increment up, `team` leads, and its entry records the new bid. */
  function Bid(s: Session, team: string): (r: Session)
    ensures r.index == s.index
    ensures r.currentBid.Int? <==> s.currentBid.Int?
    ensures r.currentBid.Int? ==> r.currentBid.v == s.currentBid.v + BidIncrement
    ensures r.leadingTeam == Some(team)
    ensures team in r.teamBids && r.teamBids[team] == r.currentBid
    ensures forall u :: u != team ==> (u in r.teamBids <==> u in s.teamBids)
    ensures forall u :: u != team && u in s.teamBids ==> r.teamBids[u] == s.teamBids[u]
  {
    var newBid := Add(s.currentBid, Int(BidIncrement));
    Session(s.index, newBid, Some(team), s.teamBids[team := newBid])
  }

  /**
    Move on to the next player, unless the current one is the last: then
    nothing changes and the session stays on the final player for good.
   */
  function Advance(players: seq<Player>, s: Session): (r: Session)
    ensures s.index + 1 < |players| ==>
              && r.index == s.index + 1
              && r.currentBid == players[r.index].basePrice
              && r.leadingTeam == None && r.teamBids == map[]
    ensures s.index + 1 >= |players| ==> r == s
  {
    if s.index < |players| - 1 then
      Session(s.index + 1, players[s.index + 1].basePrice, None, map[])
    else
      s
  }

  /** Sold: inert without a leading team, otherwise the player is done and the session advances. */
  function Sell(players: seq<Player>, s: Session): (r: Session)
    ensures !LeaderPresent(s.leadingTeam) ==> r == s
    ensures LeaderPresent(s.leadingTeam) ==> r == Advance(players, s)
  {
    if LeaderPresent(s.leadingTeam) then Advance(players, s) else s
  }

  /** Unsold: the session advances whether or not anyone has bid. */
  function PassOver(players: seq<Player>, s: Session): (r: Session)
    ensures s.index + 1 < |players| ==>
              && r.index == s.index + 1
              && r.currentBid == players[r.index].basePrice
              && r.leadingTeam == None && r.teamBids == map[]
    ensures s.index + 1 >= |players| ==> r == s
  {
    Advance(players, s)
  }

  function Step(players: seq<Player>, s: Session, e: Event): Session
  {
    match e
    case PlaceBid(t) => Bid(s, t)
    case ConfirmSold => Sell(players, s)
    case ConfirmUnsold => PassOver(players, s)
  }

  /** The session after a sequence of events, first event first. */
  function Run(players: seq<Player>, s: Session, events: seq<Event>): Session
    decreases |events|
  {
    if |events| == 0 then s else Run(players, Step(players, s, events[0]), events[1..])
  }

  /** An event changes the session only: no player or team record is touched, sales included. */
  function Dispatch(room: Room, e: Event): (r: Room)
    ensures r.players == room.players && r.teams == room.teams
    ensures r.session.index >= room.session.index
    ensures Valid(room.players, room.session) ==> Valid(r.players, r.session)
  {
    var next := Step(room.players, room.session, e);
    assert Valid(room.players, room.session) ==> Valid(room.players, next) by {
      if Valid(room.players, room.session) {
        StepPreservesValid(room.players, room.session, e);
      }
    }
    Room(room.players, room.teams, next)
  }

  lemma BidPreservesValid(players: seq<Player>, s: Session, team: string)
    requires Valid(players, s)
    ensures Valid(players, Bid(s, team))
  {
    var r := Bid(s, team);
    match players[s.index].basePrice
    case NaN =>
    case Int(b) =>
      assert (r.currentBid.v - b) % BidIncrement == 0 by {
        assert r.currentBid.v - b == (s.currentBid.v - b) + BidIncrement;
      }
      forall t | t in r.teamBids
        ensures && r.teamBids[t].Int?
                && b + BidIncrement <= r.teamBids[t].v <= r.currentBid.v
                && (r.teamBids[t].v - b) % BidIncrement == 0
                && (r.leadingTeam != Some(t) ==> r.teamBids[t].v < r.currentBid.v)
      {
        if t != team {
          assert t in s.teamBids && r.teamBids[t] == s.teamBids[t];
        }
      }
  }

  /** Every event keeps the session invariant. */
  lemma StepPreservesValid(players: seq<Player>, s: Session, e: Event)
    requires Valid(players, s)
    ensures Valid(players, Step(players, s, e))
  {
    if e.PlaceBid? {
      BidPreservesValid(players, s, e.team);
    }
  }

  /** Any run of events from a valid session ends in a valid session, never past the last player. */
  lemma {:induction false} RunPreservesValid(players: seq<Player>, s: Session, events: seq<Event>)
    requires Valid(players, s)
    ensures Valid(players, Run(players, s, events))
    ensures s.index <= Run(players, s, events).index < |players|
    decreases |events|
  {
    if |events| > 0 {
      StepPreservesValid(players, s, events[0]);
      RunPreservesValid(players, Step(players, s, events[0]), events[1..]);
    }
  }

  /** From a page load, every reachable session is valid. */
  lemma ReachableIsValid(players: seq<Player>, events: seq<Event>)
    requires |players| > 0
    ensures Valid(players, Run(players, Init(players), events))
  {
    RunPreservesValid(players, Init(players), events);
  }

  function Repeat(e: Event, n: nat): (es: seq<Event>)
    ensures |es| == n && forall i :: 0 <= i < n ==> es[i] == e
  {
    if n == 0 then [] else [e] + Repeat(e, n - 1)
  }

  /** n consecutive Unsold clicks move n players on, stopping at the last player. */
  lemma {:induction false} PassOverRun(players: seq<Player>, s: Session, n: nat)
    requires s.index < |players|
    ensures Run(players, s, Repeat(ConfirmUnsold, n)).index
              == if s.index + n < |players| then s.index + n else |players| - 1
    decreases n
  {
    if n > 0 {
      var es := Repeat(ConfirmUnsold, n);
      assert es[1..] == Repeat(ConfirmUnsold, n - 1);
      PassOverRun(players, Step(players, s, ConfirmUnsold), n - 1);
    }
  }

  /** After k bids (by any teams) on a player with an integer base, the running bid is base + k increments. */
  lemma {:induction false} BidsAccumulate(players: seq<Player>, s: Session, teams: seq<string>)
    requires s.currentBid.Int?
    ensures Run(players, s, seq(|teams|, i requires 0 <= i < |teams| => PlaceBid(teams[i]))).currentBid
              == Int(s.currentBid.v + |teams| * BidIncrement)
    decreases |teams|
  {
    var es := seq(|teams|, i requires 0 <= i < |teams| => PlaceBid(teams[i]));
    if |teams| > 0 {
      var rest := seq(|teams| - 1, i requires 0 <= i < |teams| - 1 => PlaceBid(teams[1..][i]));
      assert es[1..] == rest;
      BidsAccumulate(players, Bid(s, teams[0]), teams[1..]);
    }
  }

  /** The worked bidding example: base 1,000,000, bids by x then y, then a sale moves to the next player. */
  lemma TwoBidsThenSold(players: seq<Player>, x: string, y: string)
    requires |players| >= 2 && players[0].basePrice == Int(1000000)
    requires x != y && y != ""
    ensures Bid(Bid(Init(players), x), y)
              == Session(0, Int(2000000), Some(y), map[x := Int(1500000), y := Int(2000000)])
    ensures Sell(players, Bid(Bid(Init(players), x), y)) == Session(1, players[1].basePrice, None, map[])
  {
    var s2 := Bid(Bid(Init(players), x), y);
    assert s2.teamBids == map[x := Int(1500000), y := Int(2000000)];
  }
}
