/** The priced snapshot of an order that GenerateBudget carries. */
module Budget {
  import opened Entities
  import opened Machine

  /** An entry of the catalogue, as it is handed to the pricing. */
  datatype Priced = Priced(id: nat, name: string, price: int)

  function Find(entries: seq<Priced>, id: nat): Option<Priced> {
    if entries == [] then None
    else if entries[0].id == id then Some(entries[0])
    else Find(entries[1..], id)
  }

  function PriceServices(services: seq<ServiceId>, entries: seq<Priced>): Result<seq<BudgetLine>> {
    if services == [] then Success([])
    else
      match Find(entries, services[0])
      case None => Failure(NotFound)
      case Some(e) =>
        match PriceServices(services[1..], entries)
        case Failure(error) => Failure(error)
        case Success(rest) => Success([BudgetLine(ServiceLine, e.id, e.name, e.price, 1)] + rest)
  }

  function PriceItems(lines: seq<Line>, entries: seq<Priced>): Result<seq<BudgetLine>> {
    if lines == [] then Success([])
    else
      match Find(entries, lines[0].itemId)
      case None => Failure(NotFound)
      case Some(e) =>
        match PriceItems(lines[1..], entries)
        case Failure(error) => Failure(error)
        case Success(rest) => Success([BudgetLine(ItemLine, e.id, e.name, e.price, lines[0].quantity)] + rest)
  }

  function BuildBudgetLines(o: Order, services: seq<Priced>, items: seq<Priced>): Result<seq<BudgetLine>> {
    match PriceServices(o.services, services)
    case Failure(error) => Failure(error)
    case Success(serviceLines) =>
      match PriceItems(o.items, items)
      case Failure(error) => Failure(error)
      case Success(itemLines) => Success(serviceLines + itemLines)
  }

  // ----- what the snapshot keeps

  ghost predicate Listed(entries: seq<Priced>, id: nat) {
    exists k :: 0 <= k < |entries| && entries[k].id == id
  }

  /** `e` is the first entry of the catalogue with its id. */
  ghost predicate FirstOf(entries: seq<Priced>, e: Priced) {
    exists k :: 0 <= k < |entries| && entries[k] == e && forall j :: 0 <= j < k ==> entries[j].id != e.id
  }

  lemma {:induction false} FindIsFirst(entries: seq<Priced>, id: nat)
    ensures match Find(entries, id)
      case None => !Listed(entries, id)
      case Some(e) => e.id == id && Listed(entries, id) && FirstOf(entries, e)
  {
    if entries == [] {
    } else {
      if entries[0].id == id {
        assert FirstOf(entries, entries[0]) && Listed(entries, id);
      } else {
        FindIsFirst(entries[1..], id);
        match Find(entries[1..], id)
        case None => assert forall k :: 0 < k < |entries| ==> entries[k] == entries[1..][k - 1];
        case Some(e) =>
          var k :| 0 <= k < |entries[1..]| && entries[1..][k] == e && forall j :: 0 <= j < k ==>
            entries[1..][j].id != e.id;
          assert entries[k + 1] == e;
          assert forall j :: 0 < j < k + 1 ==> entries[j] == entries[1..][j - 1];
      }
    }
  }

  /** One line of the snapshot, for an entry of the catalogue. */
  ghost predicate Snapshot(l: BudgetLine, kind: LineKind, id: nat, quantity: int, entries: seq<Priced>) {
    l.kind == kind && l.referenceId == id && l.quantity == quantity
      && FirstOf(entries, Priced(id, l.description, l.unitPrice))
  }

  lemma {:induction false} ServicesPriced(services: seq<ServiceId>, entries: seq<Priced>)
    ensures var r := PriceServices(services, entries);
      && (r.Success? <==> forall k :: 0 <= k < |services| ==> Listed(entries, services[k]))
      && (r.Failure? ==> r.error.NotFound?)
      && (r.Success? ==>
            && |r.value| == |services|
            && (forall k :: 0 <= k < |services| ==> Snapshot(r.value[k], ServiceLine, services[k], 1, entries)))
  {
    if services == [] {
    } else {
      FindIsFirst(entries, services[0]);
      ServicesPriced(services[1..], entries);
      var r := PriceServices(services, entries);
      assert forall k :: 1 <= k < |services| ==> services[k] == services[1..][k - 1];
      if forall k :: 0 <= k < |services| ==> Listed(entries, services[k]) {
        assert forall k :: 0 <= k < |services[1..]| ==> Listed(entries, services[1..][k]) by {
          assert forall k :: 0 <= k < |services[1..]| ==> services[1..][k] == services[k + 1];
        }
      }
    }
  }

  lemma {:induction false} ItemsPriced(lines: seq<Line>, entries: seq<Priced>)
    ensures var r := PriceItems(lines, entries);
      && (r.Success? <==> forall k :: 0 <= k < |lines| ==> Listed(entries, lines[k].itemId))
      && (r.Failure? ==> r.error.NotFound?)
      && (r.Success? ==>
            && |r.value| == |lines|
            && (forall k :: 0 <= k < |lines| ==>
                 Snapshot(r.value[k], ItemLine, lines[k].itemId, lines[k].quantity, entries)))
  {
    if lines == [] {
    } else {
      FindIsFirst(entries, lines[0].itemId);
      ItemsPriced(lines[1..], entries);
      assert forall k :: 1 <= k < |lines| ==> lines[k] == lines[1..][k - 1];
      if forall k :: 0 <= k < |lines| ==> Listed(entries, lines[k].itemId) {
        assert forall k :: 0 <= k < |lines[1..]| ==> Listed(entries, lines[1..][k].itemId) by {
          assert forall k :: 0 <= k < |lines[1..]| ==> lines[1..][k] == lines[k + 1];
        }
      }
    }
  }

  /** The snapshot fails exactly when an entry left the catalogue; otherwise it has one line per service, then one per
      item, in the order's order, each at the first catalogue entry with its id. */
  lemma SnapshotKeepsShape(o: Order, services: seq<Priced>, items: seq<Priced>)
    ensures var r := BuildBudgetLines(o, services, items);
      && (r.Success? <==>
            && (forall k :: 0 <= k < |o.services| ==> Listed(services, o.services[k]))
            && (forall k :: 0 <= k < |o.items| ==> Listed(items, o.items[k].itemId)))
      && (r.Failure? ==> r.error.NotFound?)
      && (r.Success? ==>
            && |r.value| == |o.services| + |o.items|
            && (forall k :: 0 <= k < |o.services| ==> Snapshot(r.value[k], ServiceLine, o.services[k], 1, services))
            && (forall k :: 0 <= k < |o.items| ==>
                  Snapshot(r.value[|o.services| + k], ItemLine, o.items[k].itemId, o.items[k].quantity, items)))
  {
    ServicesPriced(o.services, services);
    ItemsPriced(o.items, items);
  }

  function Value(lines: seq<BudgetLine>): int {
    if lines == [] then 0 else lines[0].unitPrice * lines[0].quantity + Value(lines[1..])
  }

  lemma {:induction false} ValueConcat(a: seq<BudgetLine>, b: seq<BudgetLine>)
    ensures Value(a + b) == Value(a) + Value(b)
  {
    if a == [] {
      assert a + b == b;
    } else {
      assert (a + b)[1..] == a[1..] + b;
      ValueConcat(a[1..], b);
    }
  }

  function PriceIn(entries: seq<Priced>, id: nat): int {
    match Find(entries, id)
    case None => 0
    case Some(e) => e.price
  }

  /** The price of an order taken from the catalogue directly. */
  function PriceOfServices(services: seq<ServiceId>, entries: seq<Priced>): int {
    if services == [] then 0 else PriceIn(entries, services[0]) + PriceOfServices(services[1..], entries)
  }

  function PriceOfItems(lines: seq<Line>, entries: seq<Priced>): int {
    if lines == [] then 0 else PriceIn(entries, lines[0].itemId) * lines[0].quantity + PriceOfItems(lines[1..], entries)
  }

  lemma {:induction false} ServicesValue(services: seq<ServiceId>, entries: seq<Priced>)
    ensures var r := PriceServices(services, entries);
      r.Success? ==> Value(r.value) == PriceOfServices(services, entries)
  {
    if services == [] {
    } else {
      ServicesValue(services[1..], entries);
    }
  }

  lemma {:induction false} ItemsValue(lines: seq<Line>, entries: seq<Priced>)
    ensures var r := PriceItems(lines, entries);
      r.Success? ==> Value(r.value) == PriceOfItems(lines, entries)
  {
    if lines == [] {
    } else {
      ItemsValue(lines[1..], entries);
      var r := PriceItems(lines, entries);
      if r.Success? {
        assert r.value[1..] == PriceItems(lines[1..], entries).value;
        assert r.value[0].unitPrice * r.value[0].quantity == PriceIn(entries, lines[0].itemId) * lines[0].quantity;
      }
    }
  }

  /** The sum of unit price times quantity over the snapshot is the price of the order. */
  lemma SnapshotKeepsValue(o: Order, services: seq<Priced>, items: seq<Priced>)
    requires BuildBudgetLines(o, services, items).Success?
    ensures Value(BuildBudgetLines(o, services, items).value) == PriceOfServices(o.services, services) +
      PriceOfItems(o.items, items)
  {
    ServicesValue(o.services, services);
    ItemsValue(o.items, items);
    ValueConcat(PriceServices(o.services, services).value, PriceItems(o.items, items).value);
  }

  // ----- the snapshot the saga builds from what it reads

  function PricedService(id: ServiceId, cat: Catalogue): Priced
    requires id in cat.services
  {
    Priced(id, cat.services[id].name, cat.services[id].price)
  }

  function PricedItem(id: ItemId, cat: Catalogue): Priced
    requires id in cat.items
  {
    Priced(id, cat.items[id].name, cat.items[id].price)
  }

  /** The services found for an order, one read per line, missing ones left out. */
  function FoundServices(services: seq<ServiceId>, cat: Catalogue): seq<Priced> {
    if services == [] then []
    else
      var rest := FoundServices(services[1..], cat);
      if services[0] in cat.services then [PricedService(services[0], cat)] + rest else rest
  }

  function FoundItems(lines: seq<Line>, cat: Catalogue): seq<Priced> {
    if lines == [] then []
    else
      var rest := FoundItems(lines[1..], cat);
      if lines[0].itemId in cat.items then [PricedItem(lines[0].itemId, cat)] + rest else rest
  }

  lemma FindPrepend(e: Priced, rest: seq<Priced>, id: nat)
    ensures Find([e] + rest, id) == if e.id == id then Some(e) else Find(rest, id)
  {
  }

  lemma {:induction false} FindFoundService(services: seq<ServiceId>, cat: Catalogue, id: ServiceId)
    requires id in services
    ensures Find(FoundServices(services, cat), id) ==
      if id in cat.services then Some(PricedService(id, cat)) else None
  {
    if services[0] in cat.services {
      FindPrepend(PricedService(services[0], cat), FoundServices(services[1..], cat), id);
    }
    if services[0] != id {
      FindFoundService(services[1..], cat, id);
    } else if id !in cat.services {
      NotFoundService(services[1..], cat, id);
    }
  }

  lemma {:induction false} NotFoundService(services: seq<ServiceId>, cat: Catalogue, id: ServiceId)
    requires id !in cat.services
    ensures Find(FoundServices(services, cat), id).None?
  {
    if services == [] {
    } else {
      if services[0] in cat.services {
        FindPrepend(PricedService(services[0], cat), FoundServices(services[1..], cat), id);
      }
      NotFoundService(services[1..], cat, id);
    }
  }

  lemma {:induction false} FindFoundItem(lines: seq<Line>, cat: Catalogue, k: nat)
    requires k < |lines|
    ensures var id := lines[k].itemId;
      Find(FoundItems(lines, cat), id) ==
        if id in cat.items then Some(PricedItem(id, cat)) else None
  {
    var id := lines[k].itemId;
    if lines[0].itemId in cat.items {
      FindPrepend(PricedItem(lines[0].itemId, cat), FoundItems(lines[1..], cat), id);
    }
    if lines[0].itemId != id {
      FindFoundItem(lines[1..], cat, k - 1);
    } else if id !in cat.items {
      NotFoundItem(lines[1..], cat, id);
    }
  }

  lemma {:induction false} NotFoundItem(lines: seq<Line>, cat: Catalogue, id: ItemId)
    requires id !in cat.items
    ensures Find(FoundItems(lines, cat), id).None?
  {
    if lines == [] {
    } else {
      if lines[0].itemId in cat.items {
        FindPrepend(PricedItem(lines[0].itemId, cat), FoundItems(lines[1..], cat), id);
      }
      NotFoundItem(lines[1..], cat, id);
    }
  }

  lemma {:induction false} PricedFromCatalogue(services: seq<ServiceId>, entries: seq<Priced>, cat: Catalogue)
    requires forall s :: s in services ==>
      Find(entries, s) == if s in cat.services then Some(PricedService(s, cat)) else None
    ensures PriceServices(services, entries) ==
      if forall s :: s in services ==> s in cat.services then Success(ServiceLines(services, cat))
      else Failure(NotFound)
  {
    if services == [] {
      assert ServiceLines(services, cat) == [];
    } else {
      PricedFromCatalogue(services[1..], entries, cat);
      assert forall s :: s in services <==> s == services[0] || s in services[1..];
      if services[0] !in cat.services {
        assert PriceServices(services, entries) == Failure(NotFound);
      } else if forall s :: s in services[1..] ==> s in cat.services {
        var e := PricedService(services[0], cat);
        assert PriceServices(services, entries) ==
          Success([BudgetLine(ServiceLine, e.id, e.name, e.price, 1)] + ServiceLines(services[1..], cat));
        assert ServiceLines(services, cat) == [ServiceLines(services, cat)[0]] + ServiceLines(services[1..], cat);
      }
    }
  }

  lemma {:induction false} PricedItemsFromCatalogue(lines: seq<Line>, entries: seq<Priced>, cat: Catalogue)
    requires forall k :: 0 <= k < |lines| ==>
      Find(entries, lines[k].itemId) ==
        if lines[k].itemId in cat.items
        then Some(PricedItem(lines[k].itemId, cat)) else None
    ensures PriceItems(lines, entries) ==
      if forall l :: l in lines ==> l.itemId in cat.items then Success(ItemLines(lines, cat)) else Failure(NotFound)
  {
    if lines == [] {
      assert ItemLines(lines, cat) == [];
    } else {
      PricedItemsFromCatalogue(lines[1..], entries, cat);
      assert forall l :: l in lines <==> l == lines[0] || l in lines[1..];
      if lines[0].itemId !in cat.items {
        assert PriceItems(lines, entries) == Failure(NotFound);
      } else if forall l :: l in lines[1..] ==> l.itemId in cat.items {
        var e := PricedItem(lines[0].itemId, cat);
        assert PriceItems(lines, entries) ==
          Success([BudgetLine(ItemLine, e.id, e.name, e.price, lines[0].quantity)] + ItemLines(lines[1..], cat));
        assert ItemLines(lines, cat) == [ItemLines(lines, cat)[0]] + ItemLines(lines[1..], cat);
      }
    }
  }

  /** Reading the entries one by one and pricing what was found gives the catalogue's own lines, or fails. */
  lemma SnapshotOfCatalogue(o: Order, cat: Catalogue)
    ensures BuildBudgetLines(o, FoundServices(o.services, cat), FoundItems(o.items, cat)) ==
      if NamesServices(o, cat) && (forall l :: l in o.items ==> l.itemId in cat.items)
      then Success(ServiceLines(o.services, cat) + ItemLines(o.items, cat)) else Failure(NotFound)
  {
    forall s | s in o.services
      ensures Find(FoundServices(o.services, cat), s) ==
        if s in cat.services then Some(PricedService(s, cat)) else None
    {
      FindFoundService(o.services, cat, s);
    }
    forall k | 0 <= k < |o.items|
      ensures var id := o.items[k].itemId;
        Find(FoundItems(o.items, cat), id) ==
          if id in cat.items then Some(PricedItem(id, cat)) else None
    {
      FindFoundItem(o.items, cat, k);
    }
    PricedFromCatalogue(o.services, FoundServices(o.services, cat), cat);
    PricedItemsFromCatalogue(o.items, FoundItems(o.items, cat), cat);
  }
}
