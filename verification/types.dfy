/**
  The domain records of the auction: players, teams, their closed
  enumerations, and the declared (but unused by the pages) auction-state
  record.
 */
module AuctionTypes {
  import opened JsValues

  datatype Option<T> = None | Some(value: T)

  /** The four declared playing roles. */
  datatype Skill = Batsman | Bowler | AllRounder | WicketKeeper

  /** Sale status of a player. */
  datatype Status = Unsold | Sold

  /** The text under which each role is written in the data. */
  function SkillName(k: Skill): string
  {
    match k
    case Batsman => "Batsman"
    case Bowler => "Bowler"
    case AllRounder => "All-Rounder"
    case WicketKeeper => "Wicket-Keeper"
  }

  /** Reads a role back from its text; any other text is not a declared role. */
  function ParseSkill(s: string): (r: Option<Skill>)
    ensures r.Some? ==> SkillName(r.value) == s
  {
    if s == "Batsman" then Some(Batsman)
    else if s == "Bowler" then Some(Bowler)
    else if s == "All-Rounder" then Some(AllRounder)
    else if s == "Wicket-Keeper" then Some(WicketKeeper)
    else None
  }

  /** Every role survives being written out and read back, so the names are pairwise distinct. */
  lemma SkillNameRoundTrip(k: Skill)
    ensures ParseSkill(SkillName(k)) == Some(k)
  {
  }

  /**
    A player. `name` and `skill` are kept as the raw values the pages store:
    the importer copies whatever cell its alias chain picks, so the declared
    string/enumeration types are not enforced at run time. `basePrice` is a
    JavaScript number, which `Number(...)` can make NaN. Only `soldPrice` and
    `teamId` are optional.
   */
  datatype Player = Player(
    id: string,
    name: Value,
    skill: Value,
    basePrice: Num,
    soldPrice: Option<Num>,
    status: Status,
    teamId: Option<string>,
    photo: string)
  {
    /** The skill is the text of one of the four declared roles. */
    predicate HasDeclaredSkill()
    {
      skill.Text? && ParseSkill(skill.s).Some?
    }
  }

  /** A team with its budget and squad figures, all mandatory. */
  datatype Team = Team(
    id: string,
    name: string,
    logo: string,
    totalBudget: int,
    spentBudget: int,
    maxPlayers: int,
    currentPlayers: int,
    color: string)

  /** Declared auction-state record; the auction page keeps its own session instead. */
  datatype AuctionState = AuctionState(
    currentPlayer: Option<Player>,
    currentBid: Num,
    currentTeam: Option<string>,
    isActive: bool)
}
