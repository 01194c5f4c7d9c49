/**
  The player importer: each decoded spreadsheet row becomes an unsold
  player. Column aliases are tried left to right with JavaScript `||`, so
  any falsy cell ("" , 0, false, a missing column) falls through to the
  next alias or to the default. Spreadsheet decoding itself happens before
  this step; the rows arrive already decoded.
 */
module UploadPlayers {
  import opened JsValues
  import opened AuctionTypes

  /** A decoded row: column header to cell. */
  type Row = map<string, Value>

  const DefaultSkill: string := "Batsman"
  const DefaultBasePrice: int := 1000000
  const PlaceholderPhoto: string := "/placeholder.svg"

  /** Reading a column the row lacks gives `undefined`. */
  function Cell(row: Row, column: string): Value
  {
    if column in row then row[column] else Undefined
  }

  function NameOf(row: Row): Value
  {
    OrChain([Cell(row, "Name"), Cell(row, "name"), Text("")])
  }

  function SkillOf(row: Row): Value
  {
    OrChain([Cell(row, "Skill"), Cell(row, "skill"), Text(DefaultSkill)])
  }

  function PriceCell(row: Row): Value
  {
    OrChain([Cell(row, "Base Price"), Cell(row, "base price"), Cell(row, "basePrice"), Number(DefaultBasePrice)])
  }

  /** `p{now}_{index}`: a clock reading and the row position. */
  function PlayerId(now: nat, index: nat): (id: string)
    ensures |id| == 2 + |Decimal(now)| + |Decimal(index)| && id[0] == 'p'
    ensures id[1..1 + |Decimal(now)|] == Decimal(now)
    ensures id[1 + |Decimal(now)|] == '_'
    ensures forall k :: 1 <= k < 1 + |Decimal(now)| ==> id[k] != '_'
    ensures id[2 + |Decimal(now)|..] == Decimal(index)
  {
    "p" + Decimal(now) + "_" + Decimal(index)
  }

  /**
    One row as a player. `now` is the clock reading taken for this row.
    Name, skill and price follow their alias chains; everything else is fixed.
   */
  function RowToPlayer(row: Row, now: nat, index: nat): (p: Player)
    ensures p.id == PlayerId(now, index)
    ensures p.status == Unsold && p.photo == PlaceholderPhoto
    ensures p.soldPrice == None && p.teamId == None
    ensures p.name == (if Truthy(Cell(row, "Name")) then Cell(row, "Name")
                       else if Truthy(Cell(row, "name")) then Cell(row, "name")
                       else Text(""))
    ensures p.skill == (if Truthy(Cell(row, "Skill")) then Cell(row, "Skill")
                        else if Truthy(Cell(row, "skill")) then Cell(row, "skill")
                        else Text(DefaultSkill))
    ensures p.basePrice == ToNumber(if Truthy(Cell(row, "Base Price")) then Cell(row, "Base Price")
                                    else if Truthy(Cell(row, "base price")) then Cell(row, "base price")
                                    else if Truthy(Cell(row, "basePrice")) then Cell(row, "basePrice")
                                    else Number(DefaultBasePrice))
  {
    OrChain3(Cell(row, "Name"), Cell(row, "name"), Text(""));
    OrChain3(Cell(row, "Skill"), Cell(row, "skill"), Text(DefaultSkill));
    OrChain4(Cell(row, "Base Price"), Cell(row, "base price"), Cell(row, "basePrice"), Number(DefaultBasePrice));
    Player(
      PlayerId(now, index),
      NameOf(row),
      SkillOf(row),
      ToNumber(PriceCell(row)),
      None,
      Unsold,
      None,
      PlaceholderPhoto)
  }

  /** All rows, in order; `clock(i)` is the time read while mapping row i. */
  function Import(rows: seq<Row>, clock: nat -> nat): (players: seq<Player>)
    ensures |players| == |rows|
    ensures forall i :: 0 <= i < |rows| ==> players[i] == RowToPlayer(rows[i], clock(i), i)
  {
    seq(|rows|, i requires 0 <= i < |rows| => RowToPlayer(rows[i], clock(i), i))
  }

  /** Every imported player starts unsold, unassigned, with the placeholder photo. */
  lemma ImportedAreFresh(rows: seq<Row>, clock: nat -> nat)
    ensures forall p :: p in Import(rows, clock) ==>
              p.status == Unsold && p.soldPrice == None && p.teamId == None && p.photo == PlaceholderPhoto
  {
  }

  /** Ids built from different row positions differ, whatever the clock readings. */
  lemma PlayerIdsDiffer(now1: nat, i: nat, now2: nat, j: nat)
    requires i != j
    ensures PlayerId(now1, i) != PlayerId(now2, j)
  {
    var a, c := Decimal(now1), Decimal(now2);
    var x, y := PlayerId(now1, i), PlayerId(now2, j);
    if x == y {
      assert |a| == |c|;
      DecimalInjective(i, j);
    }
  }

  /** One import never hands out the same id twice. */
  lemma ImportIdsDistinct(rows: seq<Row>, clock: nat -> nat)
    ensures var ps := Import(rows, clock);
            forall i, j :: 0 <= i < j < |ps| ==> ps[i].id != ps[j].id
  {
    var ps := Import(rows, clock);
    forall i, j | 0 <= i < j < |ps|
      ensures ps[i].id != ps[j].id
    {
      PlayerIdsDiffer(clock(i), i, clock(j), j);
    }
  }

  /**
    A falsy "Base Price" (missing, 0, "" or false) is skipped: the next
    truthy alias is read, and with none the default applies.
   */
  lemma FalsyPriceFallsThrough(row: Row, now: nat, index: nat)
    requires !Truthy(Cell(row, "Base Price"))
    ensures Truthy(Cell(row, "base price"))
            ==> RowToPlayer(row, now, index).basePrice == ToNumber(Cell(row, "base price"))
    ensures !Truthy(Cell(row, "base price")) && Truthy(Cell(row, "basePrice"))
            ==> RowToPlayer(row, now, index).basePrice == ToNumber(Cell(row, "basePrice"))
    ensures !Truthy(Cell(row, "base price")) && !Truthy(Cell(row, "basePrice"))
            ==> RowToPlayer(row, now, index).basePrice == Int(DefaultBasePrice)
  {
  }

  /** A zero "Base Price" in particular falls through. */
  lemma ZeroPriceFallsThrough(row: Row, now: nat, index: nat)
    requires Cell(row, "Base Price") == Number(0)
    ensures !Truthy(Cell(row, "base price")) && !Truthy(Cell(row, "basePrice"))
            ==> RowToPlayer(row, now, index).basePrice == Int(DefaultBasePrice)
  {
    FalsyPriceFallsThrough(row, now, index);
  }

  /** A skill text outside the four roles is imported as it stands. */
  lemma UnknownSkillIsKept(row: Row, now: nat, index: nat, s: string)
    requires Cell(row, "Skill") == Text(s) && s != "" && ParseSkill(s).None?
    ensures var p := RowToPlayer(row, now, index);
            p.skill == Text(s) && !p.HasDeclaredSkill()
  {
  }

  /** The example row of the downloadable template. */
  const TemplateRow: Row :=
    map["Name" := Text("Player Name"), "Skill" := Text("Batsman"), "Base Price" := Number(2000000)]

  /** Importing the template row reads back the example values, with a declared skill. */
  lemma TemplateImports(now: nat)
    ensures var p := RowToPlayer(TemplateRow, now, 0);
            && p.name == Text("Player Name")
            && p.skill == Text(SkillName(Batsman)) && p.HasDeclaredSkill()
            && p.basePrice == Int(2000000)
            && p.status == Unsold
  {
    assert Cell(TemplateRow, "Name") == Text("Player Name");
    assert Cell(TemplateRow, "Skill") == Text("Batsman");
    assert Cell(TemplateRow, "Base Price") == Number(2000000);
  }

  /** A row with the canonical headers: every field is read as given. */
  lemma CanonicalRow(now: nat)
    ensures var p := RowToPlayer(map["Name" := Text("A"), "Skill" := Text("Bowler"), "Base Price" := Number(1500000)], now, 0);
            p.name == Text("A") && p.skill == Text("Bowler") && p.basePrice == Int(1500000) && p.status == Unsold
  {
    var row: Row := map["Name" := Text("A"), "Skill" := Text("Bowler"), "Base Price" := Number(1500000)];
    assert Cell(row, "Name") == Text("A");
    assert Cell(row, "Skill") == Text("Bowler");
    assert Cell(row, "Base Price") == Number(1500000);
  }

  /** A row with lower-case aliases, no skill and a price given as text. */
  lemma AliasRow(now: nat)
    ensures var q := RowToPlayer(map["name" := Text("b"), "basePrice" := Text("2000000")], now, 1);
            q.name == Text("b") && q.skill == Text("Batsman") && q.basePrice == Int(2000000) && q.status == Unsold
  {
    var row: Row := map["name" := Text("b"), "basePrice" := Text("2000000")];
    assert row.Keys == {"name", "basePrice"};
    assert Cell(row, "Name") == Undefined;
    assert Cell(row, "name") == Text("b");
    assert Cell(row, "Skill") == Undefined && Cell(row, "skill") == Undefined;
    assert Cell(row, "Base Price") == Undefined && Cell(row, "base price") == Undefined;
    assert Cell(row, "basePrice") == Text("2000000");
    assert "2000000" == Decimal(2000000);
    NumberOfDecimal(2000000);
  }

  /** What the file picker holds when Upload is pressed. */
  datatype Selection = NoFile | Chosen(decoded: Decoded)

  /** The outcome of decoding the chosen file's first sheet. */
  datatype Decoded = Rows(rows: seq<Row>) | DecodeFailed

  /** The notification shown after an upload attempt. */
  datatype Notice = SelectFileFirst | Uploaded(count: nat) | ParseFailed

  datatype UploadOutcome = UploadOutcome(preview: seq<Player>, notice: Notice)

  /**
    Pressing Upload. Without a file, or when decoding fails, the preview is
    left as it was; otherwise it is replaced by the imported players.
   */
  function HandleUpload(preview: seq<Player>, selection: Selection, clock: nat -> nat): (r: UploadOutcome)
    ensures selection == NoFile ==> r == UploadOutcome(preview, SelectFileFirst)
    ensures selection == Chosen(DecodeFailed) ==> r == UploadOutcome(preview, ParseFailed)
    ensures selection.Chosen? && selection.decoded.Rows? ==>
              && r.preview == Import(selection.decoded.rows, clock)
              && r.notice == Uploaded(|selection.decoded.rows|)
              && |r.preview| == r.notice.count
    ensures r.preview != preview ==> r.notice.Uploaded?
  {
    match selection
    case NoFile => UploadOutcome(preview, SelectFileFirst)
    case Chosen(DecodeFailed) => UploadOutcome(preview, ParseFailed)
    case Chosen(Rows(rows)) =>
      var players := Import(rows, clock);
      UploadOutcome(players, Uploaded(|players|))
  }
}
