/**
  Team figures shown on the team card and the team detail page: budget
  and squad percentages, what is left of the budget and of the squad, the
  team looked up from the route, its players and their average price.
  Percentages are exact ratios of integers rather than floating point.
 */
module TeamStats {
  import opened AuctionTypes
  import opened Sequences

  /** The exact rational num / den, with den > 0. */
  datatype Ratio = Ratio(num: int, den: int)

  /** `a <= b` between two ratios with positive denominators. */
  predicate AtMost(a: Ratio, b: Ratio)
    requires a.den > 0 && b.den > 0
  {
    a.num * b.den <= b.num * a.den
  }

  /** The rational number a ratio stands for. */
  ghost function AsReal(r: Ratio): real
    requires r.den > 0
  {
    r.num as real / r.den as real
  }

  /** `(part / whole) * 100`, kept exact: the ratio denotes that real number. */
  function Percentage(part: int, whole: int): (r: Ratio)
    requires whole > 0
    ensures r.den > 0
    ensures AsReal(r) == (part as real / whole as real) * 100.0
    ensures 0 <= part <= whole ==> 0 <= r.num <= 100 * r.den
  {
    var r := Ratio(part * 100, whole);
    assert AsReal(r) == (part as real / whole as real) * 100.0 by {
      var p, w := part as real, whole as real;
      assert (p * 100.0) / w == (p / w) * 100.0;
    }
    r
  }

  /** Share of the budget spent, as a percentage of the total. */
  function BudgetUsed(team: Team): (r: Ratio)
    requires team.totalBudget > 0
    ensures r.den > 0
    ensures AsReal(r) == (team.spentBudget as real / team.totalBudget as real) * 100.0
    ensures 0 <= team.spentBudget <= team.totalBudget ==> AtMost(Ratio(0, 1), r) && AtMost(r, Ratio(100, 1))
    ensures team.spentBudget == team.totalBudget ==> r.num == 100 * r.den
  {
    Percentage(team.spentBudget, team.totalBudget)
  }

  /** Share of the squad filled, as a percentage of the maximum. */
  function SquadFilled(team: Team): (r: Ratio)
    requires team.maxPlayers > 0
    ensures r.den > 0
    ensures AsReal(r) == (team.currentPlayers as real / team.maxPlayers as real) * 100.0
    ensures 0 <= team.currentPlayers <= team.maxPlayers ==> AtMost(Ratio(0, 1), r) && AtMost(r, Ratio(100, 1))
    ensures team.currentPlayers == 0 ==> r.num == 0
  {
    Percentage(team.currentPlayers, team.maxPlayers)
  }

  /** Money left: with what was spent it makes up the total, and it is zero exactly when all is spent. */
  function RemainingBudget(team: Team): (r: int)
    ensures r + team.spentBudget == team.totalBudget
    ensures r == 0 <==> team.spentBudget == team.totalBudget
    ensures r >= 0 <==> team.spentBudget <= team.totalBudget
  {
    team.totalBudget - team.spentBudget
  }

  /** Open squad places: with the current players they make up the maximum. */
  function SlotsRemaining(team: Team): (r: int)
    ensures r + team.currentPlayers == team.maxPlayers
    ensures r >= 0 <==> team.currentPlayers <= team.maxPlayers
  {
    team.maxPlayers - team.currentPlayers
  }

  /** For a fixed total, spending more never shows a smaller budget percentage. */
  lemma BudgetUsedMonotone(team: Team, spent1: int, spent2: int)
    requires team.totalBudget > 0 && spent1 <= spent2
    ensures AtMost(BudgetUsed(team.(spentBudget := spent1)), BudgetUsed(team.(spentBudget := spent2)))
  {
    var t := team.totalBudget;
    assert spent1 * 100 * t <= spent2 * 100 * t by {
      MultiplyMonotone(spent1 * 100, spent2 * 100, t);
    }
  }

  lemma MultiplyMonotone(a: int, b: int, c: int)
    requires a <= b && c > 0
    ensures a * c <= b * c
  {
  }

  /** The figures on a team card. */
  datatype CardView = CardView(budgetUsed: Ratio, squadFilled: Ratio, remainingBudget: int, slotsRemaining: int)

  function Card(team: Team): (c: CardView)
    requires team.totalBudget > 0 && team.maxPlayers > 0
    ensures c.budgetUsed.den > 0 && c.squadFilled.den > 0
    ensures AsReal(c.budgetUsed) == (team.spentBudget as real / team.totalBudget as real) * 100.0
    ensures AsReal(c.squadFilled) == (team.currentPlayers as real / team.maxPlayers as real) * 100.0
    ensures c.remainingBudget + team.spentBudget == team.totalBudget
    ensures c.slotsRemaining + team.currentPlayers == team.maxPlayers
  {
    CardView(BudgetUsed(team), SquadFilled(team), RemainingBudget(team), SlotsRemaining(team))
  }

  /** Position of the first team with id `id`, if any. */
  function FindTeam(teams: seq<Team>, id: string): (r: Option<nat>)
    ensures r.Some? ==> r.value < |teams| && teams[r.value].id == id
    ensures r.Some? ==> forall k :: 0 <= k < r.value ==> teams[k].id != id
    ensures r.None? <==> forall k :: 0 <= k < |teams| ==> teams[k].id != id
  {
    if |teams| == 0 then None
    else if teams[0].id == id then Some(0)
    else match FindTeam(teams[1..], id)
      case None => None
      case Some(k) => Some(k + 1)
  }

  /** The players whose team is `id`, in roster order. */
  function TeamPlayers(players: seq<Player>, id: string): (r: seq<Player>)
    ensures forall i :: 0 <= i < |r| ==> r[i].teamId == Some(id)
    ensures forall p :: p in r <==> p in players && p.teamId == Some(id)
    ensures forall p :: multiset(r)[p] == if p.teamId == Some(id) then multiset(players)[p] else 0
    ensures IsSubsequence(r, players)
  {
    FilterIsSubsequence(players, (p: Player) => p.teamId == Some(id));
    Filter(players, (p: Player) => p.teamId == Some(id))
  }

  /**
    Average price: the spent budget over the number of squad players, and 0
    for an empty squad, so nothing is ever divided by zero.
   */
  function AveragePrice(spent: int, count: nat): (r: Ratio)
    ensures r.den > 0
    ensures count == 0 ==> r.num == 0
    ensures count > 0 ==> r.num * count == spent * r.den
  {
    if count > 0 then Ratio(spent, count) else Ratio(0, 1)
  }

  /** The team detail page for a route id. */
  datatype DetailView =
    | NotFound
    | Found(
        team: Team,
        budgetUsed: Ratio,
        remainingBudget: int,
        remainingSlots: int,
        squadFilled: Ratio,
        squad: seq<Player>,
        squadSize: nat,
        averagePrice: Ratio)

  function Detail(teams: seq<Team>, players: seq<Player>, id: string): (r: DetailView)
    requires forall k :: 0 <= k < |teams| && teams[k].id == id ==>
               teams[k].totalBudget > 0 && teams[k].maxPlayers > 0
    ensures r.NotFound? <==> forall k :: 0 <= k < |teams| ==> teams[k].id != id
    ensures r.Found? ==>
              && r.team in teams && r.team.id == id
              && r.squad == TeamPlayers(players, id)
              && r.squadSize == |r.squad|
              && r.averagePrice.den > 0
              && (r.squadSize == 0 ==> r.averagePrice.num == 0)
  {
    match FindTeam(teams, id)
    case None => NotFound
    case Some(k) =>
      var team := teams[k];
      var squad := TeamPlayers(players, id);
      Found(
        team,
        BudgetUsed(team),
        RemainingBudget(team),
        SlotsRemaining(team),
        SquadFilled(team),
        squad,
        |squad|,
        AveragePrice(team.spentBudget, |squad|))
  }

  /** The detail page shows the first team with the route id. */
  lemma DetailShowsFirstMatch(teams: seq<Team>, players: seq<Player>, id: string, k: nat)
    requires forall j :: 0 <= j < |teams| && teams[j].id == id ==>
               teams[j].totalBudget > 0 && teams[j].maxPlayers > 0
    requires k < |teams| && teams[k].id == id
    requires forall j :: 0 <= j < k ==> teams[j].id != id
    ensures Detail(teams, players, id).Found? && Detail(teams, players, id).team == teams[k]
  {
    var r := FindTeam(teams, id);
    assert r.Some?;
    assert r.value == k;
  }

  /** The detail page and the team card agree on budget and squad figures for the same team. */
  lemma DetailAgreesWithCard(teams: seq<Team>, players: seq<Player>, id: string)
    requires forall k :: 0 <= k < |teams| && teams[k].id == id ==>
               teams[k].totalBudget > 0 && teams[k].maxPlayers > 0
    ensures var d := Detail(teams, players, id);
            d.Found? ==>
              && d.team.totalBudget > 0 && d.team.maxPlayers > 0
              && d.budgetUsed == Card(d.team).budgetUsed
              && d.remainingBudget == Card(d.team).remainingBudget
              && d.remainingSlots == Card(d.team).slotsRemaining
              && d.squadFilled == Card(d.team).squadFilled
  {
  }
}
