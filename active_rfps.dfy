/**
 * The Active RFPs page (src/pages/ActiveRFPs.tsx): the status-to-badge mapping and the
 * constant table of RFPs shown beside the kanban board.
 */
module ActiveRfps {
  import opened KanbanBoard

  /** The badge styles the table may use. */
  datatype BadgeVariant = Default | Secondary | Destructive | Outline

  /** `getStatusVariant`: total, and "New" falls to the default branch. */
  function StatusVariant(status: string): (v: BadgeVariant)
    ensures v == Default <==> status == "Won"
    ensures v == Outline <==> status == "Submitted"
    ensures v == Destructive <==> status == "Lost"
    ensures v == Secondary <==> status != "Won" && status != "Submitted" && status != "Lost"
  {
    if status == "Won" then Default
    else if status == "In Progress" then Secondary
    else if status == "Submitted" then Outline
    else if status == "Lost" then Destructive
    else Secondary
  }

  /** One row of the table view: a card's fields and a status label. */
  datatype TableRow = TableRow(id: string, title: string, company: string, value: int, dueDate: string, status: string)

  const RfpsForTable: seq<TableRow> := [
    TableRow("rfp-1", "Cloud Infrastructure Overhaul", "Innovate Corp", 250000, "2024-09-15", "New"),
    TableRow("rfp-2", "Cybersecurity Solutions", "SecureNet", 120000, "2024-09-20", "New"),
    TableRow("rfp-3", "Data Analytics Platform", "DataDriven Inc.", 350000, "2024-08-30", "In Progress"),
    TableRow("rfp-4", "Website Redesign", "Creative Solutions", 80000, "2024-08-10", "Submitted"),
    TableRow("rfp-5", "Managed IT Services", "TechPro", 150000, "2024-07-20", "Won"),
    TableRow("rfp-6", "E-commerce Platform", "RetailGiant", 200000, "2024-07-15", "Lost")
  ]

  function RowCard(r: TableRow): Rfp {
    Rfp(r.id, r.title, r.company, r.value, r.dueDate)
  }

  /** A column's cards, each paired with the column's name. */
  function Tagged(c: Column): (p: seq<(string, Rfp)>)
    ensures |p| == |c.items|
  {
    seq(|c.items|, i requires 0 <= i < |c.items| => (c.name, c.items[i]))
  }

  /** The board read in render order, each card paired with the name of its column. */
  function Placement(cols: Columns, keys: seq<string>): seq<(string, Rfp)>
    requires KeysIn(cols, keys)
  {
    if keys == [] then [] else Tagged(cols[keys[0]]) + Placement(cols, keys[1..])
  }

  lemma SeedPlacement()
    ensures Placement(InitialRfps, ColumnKeys) ==
      Tagged(SeedNew) + Tagged(SeedInProgress) + Tagged(SeedSubmitted) + Tagged(SeedWon) + Tagged(SeedLost)
  {
    var c, k := InitialRfps, ColumnKeys;
    assert k[1..][1..][1..][1..] == ["lost"];
    assert k[1..][1..][1..] == ["won", "lost"];
    assert k[1..][1..] == ["submitted", "won", "lost"];
    assert k[1..] == ["inProgress", "submitted", "won", "lost"];
    assert Placement(c, k[1..][1..][1..][1..]) == Tagged(SeedLost);
    assert Placement(c, k[1..][1..][1..]) == Tagged(SeedWon) + Tagged(SeedLost);
    assert Placement(c, k[1..][1..]) == Tagged(SeedSubmitted) + (Tagged(SeedWon) + Tagged(SeedLost));
    assert Placement(c, k[1..]) == Tagged(SeedInProgress) + (Tagged(SeedSubmitted) + (Tagged(SeedWon) + Tagged(SeedLost)));
    assert Placement(c, k) == Tagged(SeedNew) + (Tagged(SeedInProgress) + (Tagged(SeedSubmitted) + (Tagged(SeedWon) + Tagged(SeedLost))));
  }

  /**
   * The table's rows are the seed board's cards in render order, each with the name of
   * the column that holds it as its status.
   */
  lemma TableMirrorsKanbanSeed()
    ensures |RfpsForTable| == |Placement(InitialRfps, ColumnKeys)|
    ensures forall i :: 0 <= i < |RfpsForTable| ==>
      Placement(InitialRfps, ColumnKeys)[i] == (RfpsForTable[i].status, RowCard(RfpsForTable[i]))
  {
    SeedPlacement();
    assert Tagged(SeedNew) == [("New", SeedNew.items[0]), ("New", SeedNew.items[1])];
    assert Tagged(SeedInProgress) == [("In Progress", SeedInProgress.items[0])];
    assert Tagged(SeedSubmitted) == [("Submitted", SeedSubmitted.items[0])];
    assert Tagged(SeedWon) == [("Won", SeedWon.items[0])];
    assert Tagged(SeedLost) == [("Lost", SeedLost.items[0])];
  }

  /** The badges the table draws for its seed rows; "New" and "In Progress" share one style. */
  lemma SeedBadges()
    ensures seq(|RfpsForTable|, i requires 0 <= i < |RfpsForTable| => StatusVariant(RfpsForTable[i].status))
      == [Secondary, Secondary, Secondary, Outline, Default, Destructive]
  {
  }
}
