# Cricket player auction — a Dafny model of its logic

The application is a single-page browser UI for a cricket player auction.
Almost all of it is view code. This project models the sequential logic
inside it as pure functions over immutable datatypes, and proves properties
of that model:

- **Live auction session** (`src/pages/Auction.tsx`). The session tracks the
  current player index, the running bid, the leading team and each team's
  last bid. It moves on three events: a team bids, Sold, Unsold. A bid adds
  500,000. Sold does nothing without a leading team. Both Sold and Unsold
  move to the next player, unless the current player is the last one.
- **Player import** (`src/pages/UploadPlayers.tsx`). Each decoded spreadsheet
  row becomes an unsold player. Column aliases are tried with JavaScript
  `or` truthiness, then defaults apply. The price goes through `Number(...)`.
  The id is `p{clock}_{row}`.
- **Player registry** (`src/pages/Players.tsx`). A status filter over the
  roster, plus the sold and unsold tallies.
- **Team figures** (`src/components/team/TeamCard.tsx`,
  `src/pages/TeamDetail.tsx`). Budget and squad percentages, remaining
  budget and squad slots, the team lookup from the route, the team's
  players, and an average price that is guarded against an empty squad.

Files:

| file | module | contents |
|---|---|---|
| `js_values.dfy` | `JsValues` | JavaScript numbers (integer or NaN), cell values, truthiness, the `or` operator, `Number(...)`, decimal text |
| `types.dfy` | `AuctionTypes` | `Player`, `Team`, `Skill`, `Status`, `AuctionState` from `src/types/auction.ts` |
| `sequences.dfy` | `Sequences` | order-preserving filter and subsequence facts |
| `auction.dfy` | `Auction` | the session state machine and its invariant |
| `upload.dfy` | `UploadPlayers` | row-to-player coercion, ids, and the upload handler |
| `roster.dfy` | `Roster` | status filter and tallies |
| `team_stats.dfy` | `TeamStats` | team card and team detail figures |

Modelling choices:

- **Raw `name` and `skill`.** A player's `name` and `skill` are raw cell
  values. The importer stores whatever its alias chain picks, which can be
  a number or an undeclared skill text. The declared four-role type is kept
  as the `Skill` datatype, and `Player.HasDeclaredSkill` says when a stored
  skill is one of the four roles.
- **Prices can be NaN.** `basePrice` is a JavaScript number, and `Number(...)`
  can make it NaN. The running bid is computed with JavaScript `+`, so a NaN
  base price keeps every bid NaN. The session invariant states both cases.
- **Clock readings.** `Date.now()` is read once per row inside the mapping,
  so the importer takes a clock function: `clock(i)` is the reading for
  row i.
- **Sold is atomic.** The 4-second celebration delay is folded into the
  sale: selling and moving on are one step.
- **Exact percentages.** Percentages are exact integer ratios. Their real
  meaning is `(part / whole) * 100`.

Behaviour the model keeps as the code has it:

- Sold never writes `soldPrice`, `teamId` or a status onto the player. It
  also never changes the team's `spentBudget` or `currentPlayers`.
  `Auction.Dispatch` states this.
- Nothing guarantees that "status is Sold exactly when `soldPrice` and
  `teamId` are present". The model does not assert it.
- Column aliases are exact header names. They are not matched
  case-insensitively.
- The price is the first *truthy* alias passed to `Number(...)`. A
  non-numeric text therefore gives NaN; it does not fall through to the
  next alias. A `0` or `""` does fall through.

## Model

| member | source | states |
|---|---|---|
| `AuctionTypes.ParseSkill` | src/types/auction.ts:1 | only the four role names parse to a role, and each parses back to the name it was read from |
| `AuctionTypes.SkillNameRoundTrip` | src/types/auction.ts:1 | every role's name reads back as that role, so the four names are distinct |
| `JsValues.Add` | src/pages/Auction.tsx:21 | the JavaScript sum is an integer exactly when both operands are; otherwise it is NaN; the second operand is recovered by subtraction |
| `JsValues.FirstTruthy` | src/pages/UploadPlayers.tsx:37-39 | the chosen operand is the first truthy operand, every operand before it being falsy; with no truthy operand it is the last one |
| `JsValues.OrChainIsFirstTruthy` | src/pages/UploadPlayers.tsx:37-39 | a left-grouped chain of `or` operators evaluates to the first truthy operand, or else to the last |
| `JsValues.OrChain3` | src/pages/UploadPlayers.tsx:37-38 | the three-operand `or` chain is a if truthy, else b if truthy, else c |
| `JsValues.OrChain4` | src/pages/UploadPlayers.tsx:39 | the four-operand `or` chain is the first truthy of a, b, c, else d |
| `JsValues.DecimalRoundTrip` | src/pages/UploadPlayers.tsx:36 | reading back the decimal text of n gives n |
| `JsValues.DecimalInjective` | src/pages/UploadPlayers.tsx:36 | distinct integers have distinct decimal texts |
| `JsValues.NumberOfDecimal` | src/pages/UploadPlayers.tsx:39 | `Number` of the decimal text of n is n |
| `Auction.Init` | src/pages/Auction.tsx:11-14 | the first session is on player 0, bids that player's base price, has no leader and no team bids, and satisfies the session invariant |
| `Auction.Bid` | src/pages/Auction.tsx:20-25 | a bid raises the running bid by exactly 500,000 (NaN stays NaN), makes the team the leader, keeps the index, records the new bid for that team, and leaves every other team's entry as it was |
| `Auction.Advance` | src/pages/Auction.tsx:44-49 | below the last index: index + 1, bid reset to the next player's base price, leader and bids cleared; at the last index: the session is unchanged |
| `Auction.Sell` | src/pages/Auction.tsx:27-41 | without a truthy leading team, Sold changes nothing; with one, it advances |
| `Auction.PassOver` | src/pages/Auction.tsx:44-51 | Unsold, whether or not anyone bid: below the last index it moves to the next player at its base price with leader and bids cleared; at the last index the session is unchanged |
| `Auction.Dispatch` | src/pages/Auction.tsx:20-51 | no event changes a player or team record, sales included; the index never goes back; the session invariant is kept |
| `Auction.BidPreservesValid` | src/pages/Auction.tsx:20-25 | after a bid, the leader still holds the running bid, every recorded bid is at least one increment above the base and on the increment grid, and every other team's bid is strictly below the running bid |
| `Auction.StepPreservesValid` | src/pages/Auction.tsx:20-51 | bid, Sold and Unsold each keep the session invariant |
| `Auction.RunPreservesValid` | src/pages/Auction.tsx:11-51 | after any event sequence, the invariant holds and the index is within [start, number of players) |
| `Auction.ReachableIsValid` | src/pages/Auction.tsx:11-51 | every session reachable from a page load satisfies the invariant |
| `Auction.PassOverRun` | src/pages/Auction.tsx:44-51 | n Unsold clicks move min(n, players left) places, stopping at the last player and never wrapping |
| `Auction.BidsAccumulate` | src/pages/Auction.tsx:17-22 | k bids by any teams raise an integer running bid by exactly k × 500,000 |
| `Auction.TwoBidsThenSold` | src/pages/Auction.tsx:17-41 | from base 1,000,000, bids by x then y give bid 2,000,000, leader y and bids {x: 1,500,000, y: 2,000,000}; Sold then moves to player 1 at its base price, with no leader or bids |
| `UploadPlayers.PlayerId` | src/pages/UploadPlayers.tsx:36 | an id is "p", the clock digits, "_" and the row-position digits: the first underscore sits right after the clock digits and everything after it spells the row position |
| `UploadPlayers.RowToPlayer` | src/pages/UploadPlayers.tsx:35-42 | name is Name if truthy, else name if truthy, else ""; skill is Skill, else skill, else "Batsman"; basePrice is Number of the first truthy of "Base Price", "base price", basePrice, else 1000000; status Unsold, placeholder photo, no sold price, no team |
| `UploadPlayers.Import` | src/pages/UploadPlayers.tsx:35-42 | one player per row, in row order, each built from its own row, clock reading and position |
| `UploadPlayers.ImportedAreFresh` | src/pages/UploadPlayers.tsx:40-41 | every imported player is unsold, unassigned, unpriced, with the placeholder photo |
| `UploadPlayers.PlayerIdsDiffer` | src/pages/UploadPlayers.tsx:36 | ids from different row positions differ, whatever the two clock readings are |
| `UploadPlayers.ImportIdsDistinct` | src/pages/UploadPlayers.tsx:35-36 | the ids of one import are pairwise distinct |
| `UploadPlayers.FalsyPriceFallsThrough` | src/pages/UploadPlayers.tsx:39 | a falsy "Base Price" (missing, 0, "" or false) is skipped: the price is `Number` of "base price" when that is truthy, else of basePrice when that is truthy, else the default 1000000 |
| `UploadPlayers.ZeroPriceFallsThrough` | src/pages/UploadPlayers.tsx:39 | a "Base Price" of 0 with the other aliases falsy gives the default 1000000 |
| `UploadPlayers.UnknownSkillIsKept` | src/pages/UploadPlayers.tsx:38 | in any row, at any position, a non-empty "Skill" text outside the four roles is stored unchanged and is not a declared role |
| `UploadPlayers.TemplateImports` | src/pages/UploadPlayers.tsx:55-61 | the template row imports as "Player Name", skill "Batsman" (a declared role), base price 2000000, Unsold |
| `UploadPlayers.CanonicalRow` | src/pages/UploadPlayers.tsx:35-42 | a row with the canonical headers Name, Skill, "Base Price" imports with exactly those values, Unsold |
| `UploadPlayers.AliasRow` | src/pages/UploadPlayers.tsx:35-42 | a row with lower-case name and basePrice given as text imports with that name, the default skill "Batsman" and the number the text spells, Unsold |
| `UploadPlayers.HandleUpload` | src/pages/UploadPlayers.tsx:21-52 | with no file or a failed decode, the preview is unchanged and an error notice is given; otherwise the preview becomes the imported players and the notice carries their count; the preview changes only on success |
| `Roster.WithStatus` | src/pages/Players.tsx:13 | exactly the players with the given status, each as many times as in the roster, as a subsequence of the roster (so in roster order) |
| `Roster.Shown` | src/pages/Players.tsx:11-13 | "All" shows the roster unchanged; a status filter shows exactly that status's players, each as many times as in the roster, in roster order |
| `Roster.Count` | src/pages/Players.tsx:15-16 | each tally is the length of its filtered list, and sold + unsold equals the number of players |
| `Roster.StatusSplit` | src/pages/Players.tsx:15-16 | the sold and unsold lists together hold every player exactly once |
| `Roster.ShownIdempotent` | src/pages/Players.tsx:13 | filtering the filtered list again gives the same list |
| `TeamStats.Percentage` | src/components/team/TeamCard.tsx:12 | the ratio denotes (part / whole) × 100 exactly, and lies in [0, 100] when 0 ≤ part ≤ whole |
| `TeamStats.BudgetUsed` | src/components/team/TeamCard.tsx:12 | the budget-used percentage is exactly spent / total × 100; with 0 ≤ spent ≤ total it lies in [0, 100], and it is 100 when all is spent |
| `TeamStats.SquadFilled` | src/components/team/TeamCard.tsx:13 | the squad-filled percentage is exactly current / max × 100; with 0 ≤ current ≤ max it lies in [0, 100], and it is 0 for an empty squad |
| `TeamStats.RemainingBudget` | src/components/team/TeamCard.tsx:14 | remaining plus spent is the total; remaining is 0 exactly when spent equals total, and non-negative exactly when spent ≤ total |
| `TeamStats.SlotsRemaining` | src/components/team/TeamCard.tsx:65 | open slots plus current players is the maximum; non-negative exactly when current ≤ max |
| `TeamStats.Card` | src/components/team/TeamCard.tsx:12-14 | the card shows spent / total × 100 and current / max × 100 exactly, a remaining budget that with the spent budget makes the total, and open slots that with the current players make the maximum |
| `TeamStats.BudgetUsedMonotone` | src/components/team/TeamCard.tsx:12 | for a fixed total, more spending never gives a smaller budget percentage |
| `TeamStats.FindTeam` | src/pages/TeamDetail.tsx:11 | the result is the first position whose id matches; none is found exactly when no team has that id |
| `TeamStats.TeamPlayers` | src/pages/TeamDetail.tsx:12 | exactly the players whose team is the route id, each as many times as in the roster, as a subsequence of the roster (so in roster order) |
| `TeamStats.AveragePrice` | src/pages/TeamDetail.tsx:141-143 | the denominator is never zero; an empty squad shows 0; otherwise average × squad size equals the spent budget |
| `TeamStats.Detail` | src/pages/TeamDetail.tsx:9-29 | "not found" exactly when no team has the route id; otherwise it shows a team with that id, its players, and their count |
| `TeamStats.DetailShowsFirstMatch` | src/pages/TeamDetail.tsx:11-25 | when several teams share the id, the detail page shows the first one |
| `TeamStats.DetailAgreesWithCard` | src/pages/TeamDetail.tsx:27-29 | the detail page's budget percentage, remaining budget, slots and squad percentage equal the team card's for the same team |

## Left out

- Timers and overlays are left out: the 4-second `setTimeout` before advancing, the celebration and unsold animations, and their random confetti. These are presentation and timing. Races during the delay, such as a second Sold click or a bid before the timer fires, are out of scope. So is the stale `currentPlayerIndex + 1` they could expose.
- Decoding and writing spreadsheets with the `xlsx` library, reading the file, the toasts and the `uploading` flag are left out. They are a foreign library and I/O. The importer takes rows that are already decoded, and a decode failure is an input value.
- Whether `json_to_sheet` followed by `sheet_to_json` gives back the template row is not modelled (`UploadPlayers.TemplateImports` starts from the row itself). It depends on the foreign library.
- Currency and percentage text made with `toFixed` is left out, together with the division into lakh and crore units before it. It is binary floating-point rounding for display.
- JavaScript numbers are modelled as unbounded integers plus NaN. Fractions, infinities and precision above 2^53 are not modelled, and neither are numeric cells with a fractional part.
- `JsValues.StringToNumber` accepts only blank text, or an optionally signed run of decimal digits, with ASCII whitespace trimmed. JavaScript also reads decimals, exponents, `0x`, `0o` and `0b` prefixes and `Infinity`, and trims non-ASCII white space such as U+00A0, U+FEFF, U+2028 and U+2029. The model gives NaN for those.
- `JsValues.Decimal` renders any non-negative integer as plain digits. JavaScript switches to exponent notation from 1e21, which no clock reading or row index reaches.
- Cells of other JavaScript types are not modelled, for example dates. Neither are string keys beyond exact header names.
- `TeamStats.BudgetUsed` and `TeamStats.SquadFilled` require a positive total budget and a positive maximum squad. In JavaScript, a zero denominator gives NaN or Infinity.
- `TeamStats.Detail` requires positive denominators only for teams with the route id. The route always supplies an id, so the case of an `undefined` id is not modelled.
- The seed data module is not part of this model. Players and teams are parameters, and the auction requires a non-empty player list.
- Presentation components are left out: player cards, the navigation bar, the teams grid, markup, routing and styling.
- `AuctionTypes.AuctionState` is declared to mirror the type definitions. No modelled page uses it, and the auction page keeps its own session.
- Budget or capacity checks at bid or sale time are not modelled, because the code has none.
