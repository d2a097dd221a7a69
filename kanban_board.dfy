/**
 * The kanban board of the RFP list (src/components/KanbanBoard.tsx): a map from column
 * key to a named, ordered list of cards, and a transient drag marker. Dropping a card
 * on another column splices it out of its source list and appends it to the target list.
 */
module KanbanBoard {
  import opened Common

  /** One RFP card. `value` is a whole amount of currency. */
  datatype Rfp = Rfp(id: string, title: string, company: string, value: int, dueDate: string)

  datatype Column = Column(name: string, items: seq<Rfp>)

  /** What `handleDragStart` remembers: the card and the column it was rendered in. */
  datatype DragMarker = DragMarker(cardId: string, sourceColumnId: string)

  type Columns = map<string, Column>

  /** The column keys in insertion order, which is the order the board renders them in. */
  const ColumnKeys: seq<string> := ["new", "inProgress", "submitted", "won", "lost"]

  /** The seed board the component starts from, one column at a time. */
  const SeedNew := Column("New", [
    Rfp("rfp-1", "Cloud Infrastructure Overhaul", "Innovate Corp", 250000, "2024-09-15"),
    Rfp("rfp-2", "Cybersecurity Solutions", "SecureNet", 120000, "2024-09-20")])
  const SeedInProgress := Column("In Progress", [
    Rfp("rfp-3", "Data Analytics Platform", "DataDriven Inc.", 350000, "2024-08-30")])
  const SeedSubmitted := Column("Submitted", [
    Rfp("rfp-4", "Website Redesign", "Creative Solutions", 80000, "2024-08-10")])
  const SeedWon := Column("Won", [
    Rfp("rfp-5", "Managed IT Services", "TechPro", 150000, "2024-07-20")])
  const SeedLost := Column("Lost", [
    Rfp("rfp-6", "E-commerce Platform", "RetailGiant", 200000, "2024-07-15")])

  const InitialRfps: Columns := map[
    "new" := SeedNew, "inProgress" := SeedInProgress, "submitted" := SeedSubmitted,
    "won" := SeedWon, "lost" := SeedLost]

  predicate Distinct(keys: seq<string>) {
    forall i, j :: 0 <= i < j < |keys| ==> keys[i] != keys[j]
  }

  predicate KeysIn(cols: Columns, keys: seq<string>) {
    forall k :: k in keys ==> k in cols
  }

  /** The board has exactly the five seed columns. */
  predicate HasBoardKeys(cols: Columns) {
    cols.Keys == set k | k in ColumnKeys
  }

  predicate HasCard(items: seq<Rfp>, cardId: string) {
    exists j :: 0 <= j < |items| && items[j].id == cardId
  }

  /** Position of the first card with the given id, or -1 (`Array.prototype.findIndex`). */
  function FirstIndex(items: seq<Rfp>, cardId: string): (r: int)
    ensures -1 <= r < |items|
    ensures r == -1 <==> !HasCard(items, cardId)
    ensures 0 <= r ==> items[r].id == cardId && forall j :: 0 <= j < r ==> items[j].id != cardId
  {
    if |items| == 0 then -1
    else if items[0].id == cardId then 0
    else
      var r := FirstIndex(items[1..], cardId);
      assert forall j :: 1 <= j < |items| ==> items[j] == items[1..][j - 1];
      if r == -1 then -1 else r + 1
  }

  /** The multiset of all cards on the board, column by column in the order `keys`. */
  function CardBag(cols: Columns, keys: seq<string>): multiset<Rfp>
    requires KeysIn(cols, keys)
  {
    if keys == [] then multiset{} else multiset(cols[keys[0]].items) + CardBag(cols, keys[1..])
  }

  function Cards(cols: Columns): multiset<Rfp>
    requires HasBoardKeys(cols)
  {
    CardBag(cols, ColumnKeys)
  }

  /** No card occurs twice and no two different cards share an id. */
  predicate UniqueIds(bag: multiset<Rfp>) {
    && (forall a :: a in bag ==> bag[a] == 1)
    && (forall a, b :: a in bag && b in bag && a.id == b.id ==> a == b)
  }

  /**
   * The columns after `handleDrop` moves card `cardId` from `source` to `target`:
   * the first card with that id leaves the source list, the others keep their order,
   * and the card is appended to the end of the target list. No other entry changes.
   */
  function MoveCard(cols: Columns, cardId: string, source: string, target: string): (r: Columns)
    requires source in cols && target in cols && source != target
    requires HasCard(cols[source].items, cardId)
    ensures r.Keys == cols.Keys
    ensures forall k :: k in cols ==> r[k].name == cols[k].name
    ensures forall k :: k in cols && k != source && k != target ==> r[k] == cols[k]
    ensures var i := FirstIndex(cols[source].items, cardId);
      && cols[source].items[i].id == cardId
      && |r[source].items| == |cols[source].items| - 1
      && cols[source].items == r[source].items[..i] + [cols[source].items[i]] + r[source].items[i..]
      && r[target].items == cols[target].items + [cols[source].items[i]]
  {
    var items := cols[source].items;
    var i := FirstIndex(items, cardId);
    var rest := items[..i] + items[i + 1..];
    assert items == rest[..i] + [items[i]] + rest[i..];
    cols[source := cols[source].(items := rest)][target := cols[target].(items := cols[target].items + [items[i]])]
  }

  lemma {:induction false} CardBagFrame(cols: Columns, keys: seq<string>, k: string, c: Column)
    requires KeysIn(cols, keys) && k !in keys
    ensures CardBag(cols[k := c], keys) == CardBag(cols, keys)
  {
    if keys != [] {
      CardBagFrame(cols, keys[1..], k, c);
    }
  }

  /** Replacing one column changes the board's multiset by exactly that column's difference. */
  lemma {:induction false} CardBagUpdate(cols: Columns, keys: seq<string>, k: string, c: Column)
    requires KeysIn(cols, keys) && Distinct(keys) && k in keys
    ensures CardBag(cols[k := c], keys) + multiset(cols[k].items) == CardBag(cols, keys) + multiset(c.items)
  {
    if keys[0] == k {
      assert k !in keys[1..] by {
        forall j | 0 <= j < |keys[1..]| ensures keys[1..][j] != k {
          assert keys[1..][j] == keys[j + 1];
        }
      }
      CardBagFrame(cols, keys[1..], k, c);
    } else {
      assert k in keys[1..];
      assert cols[k := c][keys[0]] == cols[keys[0]];
      assert Distinct(keys[1..]) by {
        forall i, j | 0 <= i < j < |keys[1..]| ensures keys[1..][i] != keys[1..][j] {
          assert keys[1..][i] == keys[i + 1] && keys[1..][j] == keys[j + 1];
        }
      }
      CardBagUpdate(cols, keys[1..], k, c);
      var head := multiset(cols[keys[0]].items);
      assert CardBag(cols[k := c], keys) == head + CardBag(cols[k := c], keys[1..]);
      assert CardBag(cols, keys) == head + CardBag(cols, keys[1..]);
      var lhs := CardBag(cols[k := c], keys) + multiset(cols[k].items);
      var rhs := CardBag(cols, keys) + multiset(c.items);
      forall x ensures lhs[x] == rhs[x] {
        assert (CardBag(cols[k := c], keys[1..]) + multiset(cols[k].items))[x]
            == (CardBag(cols, keys[1..]) + multiset(c.items))[x];
      }
      assert lhs == rhs;
    }
  }

  /** Every column's cards are among the board's cards. */
  lemma {:induction false} ColumnInBag(cols: Columns, keys: seq<string>, k: string)
    requires KeysIn(cols, keys) && k in keys
    ensures multiset(cols[k].items) <= CardBag(cols, keys)
  {
    if keys[0] != k {
      ColumnInBag(cols, keys[1..], k);
    }
  }

  /** Taking `card` out of one column and adding it to another keeps the board's multiset. */
  lemma TransferKeepsCards(cols: Columns, source: string, target: string, s: Column, t: Column, card: Rfp)
    requires HasBoardKeys(cols) && source in cols && target in cols && source != target
    requires multiset(cols[source].items) == multiset(s.items) + multiset{card}
    requires multiset(t.items) == multiset(cols[target].items) + multiset{card}
    ensures HasBoardKeys(cols[source := s][target := t])
    ensures Cards(cols[source := s][target := t]) == Cards(cols)
  {
    var mid := cols[source := s];
    var r := mid[target := t];
    assert mid[target] == cols[target];
    assert Distinct(ColumnKeys);
    CardBagUpdate(cols, ColumnKeys, source, s);
    CardBagUpdate(mid, ColumnKeys, target, t);
    forall x ensures Cards(r)[x] == Cards(cols)[x] {
      assert (Cards(mid) + multiset(cols[source].items))[x] == (Cards(cols) + multiset(s.items))[x];
      assert (Cards(r) + multiset(cols[target].items))[x] == (Cards(mid) + multiset(t.items))[x];
    }
    assert Cards(r) == Cards(cols);
  }

  /** A move neither loses nor duplicates a card, so the card count and unique ids are kept. */
  lemma MoveCardConserves(cols: Columns, cardId: string, source: string, target: string)
    requires HasBoardKeys(cols)
    requires source in cols && target in cols && source != target
    requires HasCard(cols[source].items, cardId)
    ensures HasBoardKeys(MoveCard(cols, cardId, source, target))
    ensures Cards(MoveCard(cols, cardId, source, target)) == Cards(cols)
    ensures |Cards(MoveCard(cols, cardId, source, target))| == |Cards(cols)|
    ensures UniqueIds(Cards(cols)) ==> UniqueIds(Cards(MoveCard(cols, cardId, source, target)))
  {
    var items := cols[source].items;
    var i := FirstIndex(items, cardId);
    var rest := items[..i] + items[i + 1..];
    assert items == items[..i] + [items[i]] + items[i + 1..];
    assert multiset(items) == multiset(rest) + multiset{items[i]};
    TransferKeepsCards(cols, source, target, cols[source].(items := rest),
                       cols[target].(items := cols[target].items + [items[i]]), items[i]);
  }

  /**
   * On a board with unique ids the moved card is no longer in the source column and
   * is the last card of the target column.
   */
  lemma MoveCardRelocates(cols: Columns, cardId: string, source: string, target: string)
    requires HasBoardKeys(cols) && UniqueIds(Cards(cols))
    requires source in cols && target in cols && source != target
    requires HasCard(cols[source].items, cardId)
    ensures !HasCard(MoveCard(cols, cardId, source, target)[source].items, cardId)
    ensures var t := MoveCard(cols, cardId, source, target)[target].items;
      |t| > 0 && t[|t| - 1].id == cardId
  {
    var r := MoveCard(cols, cardId, source, target);
    var items := cols[source].items;
    var i := FirstIndex(items, cardId);
    var card := items[i];
    ColumnInBag(cols, ColumnKeys, source);
    assert multiset(items) == multiset(r[source].items) + multiset{card};
    assert multiset(items)[card] <= Cards(cols)[card] == 1;
    assert multiset(r[source].items)[card] == 0;
    forall j | 0 <= j < |r[source].items| ensures r[source].items[j].id != cardId {
      var other := r[source].items[j];
      assert other in multiset(r[source].items);
      assert other in Cards(cols);
    }
  }

  /** The drag marker names a card present in the column it was dragged from. */
  predicate MarkerValid(cols: Columns, m: DragMarker) {
    m.sourceColumnId in cols && HasCard(cols[m.sourceColumnId].items, m.cardId)
  }

  /** Left-to-right search as `findIndex` does it. */
  method FindIndex(items: seq<Rfp>, cardId: string) returns (index: int)
    ensures index == FirstIndex(items, cardId)
  {
    index := 0;
    while index < |items|
      invariant 0 <= index <= |items|
      invariant forall j :: 0 <= j < index ==> items[j].id != cardId
    {
      if items[index].id == cardId {
        return;
      }
      index := index + 1;
    }
    index := -1;
  }

  /** The component's state: `columns` and `draggedItem`, overwritten by the drag handlers. */
  class Board {
    var columns: Columns
    var draggedItem: Option<DragMarker>

    ghost predicate Valid()
      reads this
    {
      && HasBoardKeys(columns)
      && UniqueIds(Cards(columns))
      && (draggedItem.Some? ==> MarkerValid(columns, draggedItem.value))
    }

    constructor()
      ensures Valid()
      ensures columns == InitialRfps && draggedItem == None
    {
      columns := InitialRfps;
      draggedItem := None;
      SeedValid();
    }

    /** `handleDragStart`: the card `cardId` is rendered in column `sourceColumnId`. */
    method DragStart(cardId: string, sourceColumnId: string)
      requires Valid()
      requires sourceColumnId in columns && HasCard(columns[sourceColumnId].items, cardId)
      modifies this
      ensures Valid()
      ensures columns == old(columns)
      ensures draggedItem == Some(DragMarker(cardId, sourceColumnId))
    {
      draggedItem := Some(DragMarker(cardId, sourceColumnId));
    }

    /** `handleDrop` on the rendered column `targetColumnId`. */
    method Drop(targetColumnId: string)
      requires Valid() && targetColumnId in columns
      modifies this
      ensures Valid()
      ensures Cards(columns) == Cards(old(columns))
      ensures old(draggedItem).None? ==> columns == old(columns) && draggedItem == None
      ensures old(draggedItem).Some? ==> draggedItem == None
      ensures old(draggedItem).Some? && old(draggedItem).value.sourceColumnId == targetColumnId ==>
        columns == old(columns)
      ensures old(draggedItem).Some? && old(draggedItem).value.sourceColumnId != targetColumnId ==>
        columns == MoveCard(old(columns), old(draggedItem).value.cardId,
                            old(draggedItem).value.sourceColumnId, targetColumnId)
    {
      if draggedItem.None? {
        return;
      }
      var cardId, sourceColumnId := draggedItem.value.cardId, draggedItem.value.sourceColumnId;
      if sourceColumnId == targetColumnId {
        draggedItem := None;
        return;
      }
      var sourceColumn := columns[sourceColumnId];
      var targetColumn := columns[targetColumnId];
      var sourceItems := sourceColumn.items;
      var targetItems := targetColumn.items;

      var dragIndex := FindIndex(sourceItems, cardId);
      var removed := sourceItems[dragIndex];
      sourceItems := sourceItems[..dragIndex] + sourceItems[dragIndex + 1..];
      targetItems := targetItems + [removed];

      MoveCardConserves(columns, cardId, sourceColumnId, targetColumnId);
      columns := columns[sourceColumnId := sourceColumn.(items := sourceItems)]
                        [targetColumnId := targetColumn.(items := targetItems)];
      draggedItem := None;
    }

    /** `handleDragEnd` only restores the card's styling: the board state is untouched. */
    method DragEnd()
      requires Valid()
      ensures Valid()
      ensures columns == old(columns) && draggedItem == old(draggedItem)
    {
    }
  }

  /** Adding a card whose id is new keeps the ids unique. */
  lemma UniqueIdsExtend(bag: multiset<Rfp>, c: Rfp)
    requires UniqueIds(bag) && forall a :: a in bag ==> a.id != c.id
    ensures UniqueIds(bag + multiset{c})
  {
  }

  /** All seed cards, column by column in render order. */
  function SeedCards(): seq<Rfp> {
    SeedNew.items + SeedInProgress.items + SeedSubmitted.items + SeedWon.items + SeedLost.items
  }

  lemma SeedCardBag()
    ensures HasBoardKeys(InitialRfps)
    ensures Cards(InitialRfps) == multiset(SeedCards())
  {
    var c, k := InitialRfps, ColumnKeys;
    assert k[1..][1..][1..][1..][1..] == [];
    assert k[1..][1..][1..][1..] == ["lost"];
    assert CardBag(c, k[1..][1..][1..][1..]) == multiset(SeedLost.items);
    assert k[1..][1..][1..] == ["won", "lost"];
    assert CardBag(c, k[1..][1..][1..]) == multiset(SeedWon.items) + multiset(SeedLost.items);
    assert k[1..][1..] == ["submitted", "won", "lost"];
    assert CardBag(c, k[1..][1..]) == multiset(SeedSubmitted.items) + multiset(SeedWon.items) + multiset(SeedLost.items);
    assert k[1..] == ["inProgress", "submitted", "won", "lost"];
    assert CardBag(c, k[1..]) == multiset(SeedInProgress.items) + multiset(SeedSubmitted.items)
      + multiset(SeedWon.items) + multiset(SeedLost.items);
    assert Cards(c) == multiset(SeedNew.items) + CardBag(c, k[1..]);
  }

  /** Cards at different positions of `s` have different ids. */
  predicate DistinctIds(s: seq<Rfp>) {
    forall i, j :: 0 <= i < j < |s| ==> s[i].id != s[j].id
  }

  lemma {:induction false} DistinctIdsUnique(s: seq<Rfp>)
    requires DistinctIds(s)
    ensures UniqueIds(multiset(s))
  {
    if s != [] {
      var init, last := s[..|s| - 1], s[|s| - 1];
      assert s == init + [last];
      DistinctIdsUnique(init);
      forall a: Rfp | a in multiset(init) ensures a.id != last.id {
        var i :| 0 <= i < |init| && init[i] == a;
      }
      UniqueIdsExtend(multiset(init), last);
    }
  }

  lemma SeedUniqueIds()
    ensures UniqueIds(multiset(SeedCards()))
  {
    var s := SeedCards();
    assert s == [s[0], s[1], s[2], s[3], s[4], s[5]];
    assert DistinctIds(s);
    DistinctIdsUnique(s);
  }

  /** The seed board has the five keys and six cards with distinct ids. */
  lemma SeedValid()
    ensures HasBoardKeys(InitialRfps)
    ensures |Cards(InitialRfps)| == 6
    ensures UniqueIds(Cards(InitialRfps))
  {
    SeedCardBag();
    SeedUniqueIds();
  }
}
