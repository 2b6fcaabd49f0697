/**
  An offer as the workspace stores it: its funnel of products, its testing
  ads and testing table, its scale campaigns, its financial settings and
  its launch checklist; and the values the source builds when it creates
  an offer, a funnel item or a scale campaign.
 */
module Offers {
  import opened Base
  import opened Records
  import opened Checklist
  import opened Metrics

  /** "🧪 En Testeo", "✅ Validada", "🗄️ Archivada". */
  datatype OfferStatus = InTesting | Validated | Shelved

  /** A testing ad or a scale component: a name and an on/off switch
      ("🟢 Activo" / "🔴 Inactivo"). */
  datatype Ad = Ad(name: string, active: bool)

  /** The structure of a scale campaign: one set with X ads, X sets with
      one ad each, or anything else (one component). */
  datatype Strategy = OneOneX | OneXOne | OtherStrategy(name: string)

  datatype Campaign = Campaign(
    name: string,
    baseAd: string,
    strategy: Strategy,
    x: Option<int>,
    budget: real,
    table: Table,
    components: seq<Ad>,
    active: bool)

  /** The scale campaigns form a dictionary from campaign id to campaign,
      kept in insertion order. */
  datatype CampaignEntry = CampaignEntry(id: string, campaign: Campaign)

  datatype LaunchChecklist = LaunchChecklist(templateName: string, items: seq<Item>)

  /** A checklist template: a name and its outline text. */
  datatype Template = Template(name: string, raw: string)

  datatype Offer = Offer(
    name: string,
    funnelType: string,
    status: OfferStatus,
    funnel: seq<FunnelEntry>,
    ads: seq<Ad>,
    testing: Table,
    campaigns: seq<CampaignEntry>,
    commission: real,
    cpaTarget: real,
    checklist: Option<LaunchChecklist>)

  function CampaignIds(cs: seq<CampaignEntry>): (ids: seq<string>)
    ensures |ids| == |cs| && forall i :: 0 <= i < |cs| ==> ids[i] == cs[i].id
  {
    seq(|cs|, i requires 0 <= i < |cs| => cs[i].id)
  }

  /** The principal product sits under the key "principal", and it alone
      carries the alias "PP". */
  predicate OnePrincipal(funnel: seq<FunnelEntry>) {
    && PrincipalKey in FunnelKeys(funnel)
    && forall i :: 0 <= i < |funnel| ==> (funnel[i].item.alias == PrincipalAlias <==> funnel[i].key == PrincipalKey)
  }

  function AdNames(ads: seq<Ad>): (names: seq<string>)
    ensures |names| == |ads| && forall i :: 0 <= i < |ads| ==> names[i] == ads[i].name
  {
    seq(|ads|, i requires 0 <= i < |ads| => ads[i].name)
  }

  /** What every offer keeps: a funnel with unique keys and one principal
      product, testing ads with unique names, a valid testing table that
      has a revenue column, and unique campaign ids. */
  predicate ValidOffer(o: Offer) {
    && ValidFunnel(o.funnel)
    && OnePrincipal(o.funnel)
    && Distinct(AdNames(o.ads))
    && ValidTable(o.testing)
    && RevenueColumn in o.testing.columns
    && Distinct(CampaignIds(o.campaigns))
  }

  // ----- creating an offer -----

  const PrincipalName: string := "Producto Principal"

  /** The offer `crear_nueva_oferta` builds: in testing, a funnel holding
      only the active principal product at the given price, no ads, an
      empty testing table with the standard columns, no campaigns, zero
      commission and CPA target, and the template's parsed checklist when
      a template is given. */
  function NewOffer(name: string, funnelType: string, price: real, template: Option<Template>): (o: Offer)
    ensures ValidOffer(o)
    ensures o.name == name && o.funnelType == funnelType && o.status == InTesting
    ensures o.funnel == [FunnelEntry(PrincipalKey, FunnelItem(PrincipalName, price, PrincipalAlias, Active))]
    ensures o.ads == [] && o.campaigns == []
    ensures o.testing.columns == TestingColumns && o.testing.rows == []
    ensures o.commission == 0.0 && o.cpaTarget == 0.0
    ensures o.checklist.Some? <==> template.Some?
    ensures o.checklist == if template.Some? then Some(LaunchChecklist(template.value.name, Parse(template.value.raw))) else None
  {
    var principal := FunnelEntry(PrincipalKey, FunnelItem(PrincipalName, price, PrincipalAlias, Active));
    assert FunnelKeys([principal]) == [PrincipalKey];
    TestingColumnsDistinct();
    Offer(name, funnelType, InTesting, [principal], [], Table(TestingColumns, []), [], 0.0, 0.0,
          if template.Some? then Some(LaunchChecklist(template.value.name, Parse(template.value.raw))) else None)
  }

  lemma TestingColumnsDistinct()
    ensures Distinct(TestingColumns)
  {
    var c := TestingColumns;
    assert |c[0]| == 5 && |c[1]| == 7 && |c[2]| == 9 && |c[3]| == 15 && |c[4]| == 10;
    assert |c[5]| == 17 && |c[6]| == 14 && |c[7]| == 13 && |c[8]| == 10 && |c[9]| == 9;
    assert c[4][0] == 'V' && c[8][0] == 'R' && c[2][0] == 'I' && c[9][0] == 'R';
    forall i, j | 0 <= i < j < |c| ensures c[i] != c[j] {
      if |c[i]| == |c[j]| { assert c[i][0] != c[j][0]; }
    }
  }

  /** A new offer's checklist is a well-formed parse with no task done. */
  lemma NewOfferChecklist(name: string, funnelType: string, price: real, template: Template)
    ensures var o := NewOffer(name, funnelType, price, Some(template));
      && o.checklist.Some?
      && o.checklist.value.templateName == template.name
      && o.checklist.value.items == Parse(template.raw)
      && AllWellFormed(o.checklist.value.items)
      && DoneCount(o.checklist.value.items) == 0
  {
    ParseWellFormed(template.raw);
    ClearedNoneDone(Parse(template.raw));
  }

  // ----- a new funnel item's alias and key -----

  /** The number of keys that start with `prefix`. */
  function CountPrefixed(keys: seq<string>, prefix: string): (n: nat)
    ensures n <= |keys|
    decreases |keys|
  {
    if keys == [] then 0
    else CountPrefixed(keys[..|keys| - 1], prefix) + (if StartsWith(keys[|keys| - 1], prefix) then 1 else 0)
  }

  /** The alias letter of a funnel item type. */
  function AliasLetter(kind: string): (c: char)
    ensures c in "BUDE"
  {
    if kind == "Bump" then 'B'
    else if kind == "Upsell" then 'U'
    else if kind == "Downsell" then 'D'
    else 'E'
  }

  /** The alias and the key a new item of type `kind` gets: the type's
      letter and the type in lower case, each followed by one more than the
      number of existing keys that start with the lower-cased type. */
  function FunnelSlot(funnel: seq<FunnelEntry>, kind: string): (slot: (string, string))
  {
    var count := CountPrefixed(FunnelKeys(funnel), ToLower(kind)) + 1;
    ([AliasLetter(kind)] + NatToString(count), ToLower(kind) + "_" + NatToString(count))
  }

  /** A new item never takes the principal's alias or key. */
  lemma FunnelSlotNotPrincipal(funnel: seq<FunnelEntry>, kind: string)
    ensures FunnelSlot(funnel, kind).0 != PrincipalAlias
    ensures FunnelSlot(funnel, kind).1 != PrincipalKey
  {
    var slot := FunnelSlot(funnel, kind);
    assert slot.0[0] != 'P';
    var count := CountPrefixed(FunnelKeys(funnel), ToLower(kind)) + 1;
    assert slot.1[|ToLower(kind)|] == '_';
    assert '_' !in PrincipalKey;
  }

  /** A funnel with only the principal product: its first bump is "B1"
      under "bump_1", its first upsell "U1" under "upsell_1". */
  lemma FirstSlots(price: real)
    ensures var funnel := [FunnelEntry(PrincipalKey, FunnelItem(PrincipalName, price, PrincipalAlias, Active))];
      && FunnelSlot(funnel, "Bump") == ("B1", "bump_1")
      && FunnelSlot(funnel, "Upsell") == ("U1", "upsell_1")
  {
    var funnel := [FunnelEntry(PrincipalKey, FunnelItem(PrincipalName, price, PrincipalAlias, Active))];
    OnlyPrincipalSlot(funnel, "Bump", "bump", 'b');
    OnlyPrincipalSlot(funnel, "Upsell", "upsell", 'u');
    assert [AliasLetter("Bump")] + "1" == "B1" && "bump" + "_1" == "bump_1";
    assert [AliasLetter("Upsell")] + "1" == "U1" && "upsell" + "_1" == "upsell_1";
  }

  lemma OnlyPrincipalSlot(funnel: seq<FunnelEntry>, kind: string, lower: string, first: char)
    requires |funnel| == 1 && funnel[0].key == PrincipalKey
    requires |kind| == |lower| >= 2 && kind[1..] == lower[1..] && lower[0] == first == LowerChar(kind[0])
    requires first != 'p' && forall i :: 1 <= i < |kind| ==> !('A' <= kind[i] <= 'Z')
    ensures FunnelSlot(funnel, kind) == ([AliasLetter(kind)] + "1", lower + "_1")
  {
    var ks := FunnelKeys(funnel);
    assert ks[..0] == [];
    assert NatToString(1) == "1" by { assert DigitChar(1) == '1'; }
    assert ToLower(kind) == lower by {
      forall i | 0 <= i < |kind| ensures ToLower(kind)[i] == lower[i] {
        if i > 0 { assert kind[i] == lower[i]; }
      }
    }
    assert !StartsWith(PrincipalKey, lower) by { assert PrincipalKey[0] == 'p'; }
    assert CountPrefixed(ks, lower) == 0;
    assert lower + "_" + "1" == lower + "_1";
  }

  /** `funnel[key] = item`: the entry of `key` replaced where it stands,
      or a new entry at the end. */
  function PutEntry(funnel: seq<FunnelEntry>, key: string, item: FunnelItem): (r: seq<FunnelEntry>)
    ensures |r| == if key in FunnelKeys(funnel) then |funnel| else |funnel| + 1
  {
    if key in FunnelKeys(funnel) then
      seq(|funnel|, i requires 0 <= i < |funnel| => if funnel[i].key == key then FunnelEntry(key, item) else funnel[i])
    else funnel + [FunnelEntry(key, item)]
  }

  /** After storing, the key holds the new item, every other key keeps its
      item, and no key is gained except the new one. */
  lemma PutEntryMeaning(funnel: seq<FunnelEntry>, key: string, item: FunnelItem)
    ensures var r := PutEntry(funnel, key, item);
      && (forall i :: 0 <= i < |r| && r[i].key == key ==> r[i].item == item)
      && (forall i :: 0 <= i < |funnel| && funnel[i].key != key ==> r[i] == funnel[i])
      && (forall k :: k in FunnelKeys(r) <==> k == key || k in FunnelKeys(funnel))
  {
    var r := PutEntry(funnel, key, item);
    var ks, rks := FunnelKeys(funnel), FunnelKeys(r);
    forall k ensures k in rks <==> k == key || k in ks {
      if k in rks {
        var i :| 0 <= i < |rks| && rks[i] == k;
        if i < |funnel| { assert ks[i] == k || k == key; }
      }
      if k in ks {
        var i :| 0 <= i < |ks| && ks[i] == k;
        assert rks[i] == k;
      }
      if k == key {
        if key in ks {
          var i :| 0 <= i < |ks| && ks[i] == k;
          assert rks[i] == k;
        } else {
          assert rks[|funnel|] == key;
        }
      }
    }
  }

  /** Storing an item under a key keeps the keys unique and, for a key other
      than the principal's and an alias other than "PP", keeps the single
      principal product. */
  lemma PutEntryValid(funnel: seq<FunnelEntry>, key: string, item: FunnelItem)
    requires ValidFunnel(funnel) && OnePrincipal(funnel)
    requires key != PrincipalKey && item.alias != PrincipalAlias
    ensures var r := PutEntry(funnel, key, item);
      ValidFunnel(r) && OnePrincipal(r) && key in FunnelKeys(r)
  {
    PutEntryMeaning(funnel, key, item);
    var r := PutEntry(funnel, key, item);
    var ks, rks := FunnelKeys(funnel), FunnelKeys(r);
    assert forall i :: 0 <= i < |funnel| ==> rks[i] == ks[i];
    if key !in ks {
      assert forall i :: 0 <= i < |funnel| ==> rks[i] != key;
    }
  }

  // ----- a new scale campaign -----

  /** Python truthiness of the campaign's X: absent or 0 is false. */
  predicate Truthy(x: Option<int>) {
    x.Some? && x.value != 0
  }

  /** The components of a new campaign: "[AD i] <ad>" for i from 1 to X
      under 1-1-X, "Conjunto de Anuncios i" under 1-X-1, the base ad alone
      otherwise (or when X is missing or 0); all switched on. */
  function Components(strategy: Strategy, baseAd: string, x: Option<int>): (cs: seq<Ad>)
    ensures forall i :: 0 <= i < |cs| ==> cs[i].active
    ensures |cs| == if (strategy == OneOneX || strategy == OneXOne) && Truthy(x)
                    then (if x.value > 0 then x.value else 0) else 1
    ensures strategy == OneOneX && Truthy(x) ==>
      forall i :: 0 <= i < |cs| ==> cs[i].name == "[AD " + NatToString(i + 1) + "] " + baseAd
    ensures strategy == OneXOne && Truthy(x) ==>
      forall i :: 0 <= i < |cs| ==> cs[i].name == "Conjunto de Anuncios " + NatToString(i + 1)
    ensures !((strategy == OneOneX || strategy == OneXOne) && Truthy(x)) ==> cs == [Ad(baseAd, true)]
  {
    if strategy == OneOneX && Truthy(x) then
      seq(if x.value > 0 then x.value else 0, i requires 0 <= i => Ad("[AD " + NatToString(i + 1) + "] " + baseAd, true))
    else if strategy == OneXOne && Truthy(x) then
      seq(if x.value > 0 then x.value else 0, i requires 0 <= i => Ad("Conjunto de Anuncios " + NatToString(i + 1), true))
    else [Ad(baseAd, true)]
  }

  /** The columns of a new campaign's table: date, component, investment and
      checkouts, one sales column per funnel item in funnel order, then
      revenue, net profit and net ROAS. */
  function ScaleColumns(funnel: seq<FunnelEntry>): (cols: seq<string>)
    ensures |cols| == |funnel| + 7
    ensures forall i :: 0 <= i < |funnel| ==> cols[4 + i] == SalesColumn(funnel[i].item.alias)
    ensures cols[4 + |funnel|] == RevenueColumn
  {
    ["Fecha", "Componente", "Inversión", "Pagos Iniciados"]
    + seq(|funnel|, i requires 0 <= i < |funnel| => SalesColumn(funnel[i].item.alias))
    + [RevenueColumn, "Ganancia Neta", "ROAS Neto"]
  }

  /** The campaign `crear_campana_escala` builds: switched on, with an
      empty table of the scale columns and the strategy's components. */
  function NewCampaign(funnel: seq<FunnelEntry>, name: string, baseAd: string, strategy: Strategy,
                       budget: real, x: Option<int>): (c: Campaign)
    ensures c.active && c.table.rows == [] && c.baseAd == baseAd
    ensures c.name == name && c.strategy == strategy && c.x == x && c.budget == budget
    ensures c.table.columns == ScaleColumns(funnel)
    ensures c.components == Components(strategy, baseAd, x)
  {
    Campaign(name, baseAd, strategy, x, budget, Table(ScaleColumns(funnel), []), Components(strategy, baseAd, x), true)
  }

  /** The position of a campaign id, if present. */
  function CampaignIndex(cs: seq<CampaignEntry>, id: string): (r: Option<nat>)
    ensures r.None? <==> id !in CampaignIds(cs)
    ensures r.Some? ==> r.value < |cs| && cs[r.value].id == id
    decreases |cs|
  {
    if cs == [] then None
    else if cs[|cs| - 1].id == id then Some(|cs| - 1)
    else
      assert CampaignIds(cs) == CampaignIds(cs[..|cs| - 1]) + [cs[|cs| - 1].id];
      CampaignIndex(cs[..|cs| - 1], id)
  }

  // ----- the principal product's sales -----

  /** A funnel whose keys are unique and whose "PP" alias is exactly the
      entry under "principal" carries that alias once, or not at all. */
  lemma {:induction false} PrincipalAliasCount(funnel: seq<FunnelEntry>)
    requires ValidFunnel(funnel)
    requires forall i :: 0 <= i < |funnel| ==> (funnel[i].item.alias == PrincipalAlias <==> funnel[i].key == PrincipalKey)
    ensures AliasCount(FunnelItems(funnel), PrincipalAlias) == if PrincipalKey in FunnelKeys(funnel) then 1 else 0
    decreases |funnel|
  {
    if funnel != [] {
      var init := funnel[..|funnel| - 1];
      var items, ks := FunnelItems(funnel), FunnelKeys(funnel);
      assert FunnelItems(init) == items[..|items| - 1];
      assert FunnelKeys(init) == ks[..|ks| - 1];
      PrincipalAliasCount(init);
      if funnel[|funnel| - 1].key == PrincipalKey {
        assert PrincipalKey !in FunnelKeys(init) by {
          forall i | 0 <= i < |init| ensures init[i].key != PrincipalKey { assert ks[i] != ks[|ks| - 1]; }
        }
      } else {
        assert PrincipalKey in ks <==> PrincipalKey in FunnelKeys(init);
      }
    }
  }

  /** In a valid offer the commission of a daily record is charged on the
      row's principal sales, when positive, and on nothing else. */
  lemma OfferPpSales(o: Offer, sales: map<string, int>)
    requires ValidOffer(o)
    ensures PpSales(FunnelItems(o.funnel), sales) ==
      if PrincipalAlias in sales && sales[PrincipalAlias] > 0 then sales[PrincipalAlias] else 0
  {
    PrincipalAliasCount(o.funnel);
    PpSalesOfOnePrincipal(FunnelItems(o.funnel), sales);
  }

  // ----- adding a funnel item -----

  /** How `agregar_item_funnel` ends: the item added, or the exception it
      stops with (the revenue column missing from the testing table, the
      insert position never computed, a campaign table too narrow for it). */
  datatype FunnelOutcome = ItemAdded(alias: string) | NoRevenueColumn | UnboundPosition | PositionPastEnd(campaignId: string)

  function Width(e: CampaignEntry): nat {
    |e.campaign.table.columns|
  }

  predicate SomeCampaignHas(cs: seq<CampaignEntry>, column: string) {
    exists i :: 0 <= i < |cs| && column in cs[i].campaign.table.columns
  }

  /** The first campaign whose table is too narrow for a column at `pos`. */
  function FirstNarrow(cs: seq<CampaignEntry>, pos: nat): (r: Option<nat>)
    ensures r.None? ==> forall i :: 0 <= i < |cs| ==> pos <= Width(cs[i])
    ensures r.Some? ==> r.value < |cs| && Width(cs[r.value]) < pos
    ensures r.Some? ==> forall i :: 0 <= i < r.value ==> pos <= Width(cs[i])
    decreases |cs|
  {
    if cs == [] then None
    else if Width(cs[0]) < pos then Some(0)
    else
      match FirstNarrow(cs[1..], pos)
      case None => None
      case Some(k) => Some(k + 1)
  }

  function WithSalesColumn(e: CampaignEntry, pos: nat, alias: string): (u: CampaignEntry)
    requires pos <= Width(e)
    ensures u.id == e.id
  {
    e.(campaign := e.campaign.(table := InsertSalesColumn(e.campaign.table, pos, alias)))
  }

  /** The campaigns with the sales column inserted into the first `n`. */
  function InsertIntoFirst(cs: seq<CampaignEntry>, n: nat, pos: nat, alias: string): (r: seq<CampaignEntry>)
    requires n <= |cs| && forall i :: 0 <= i < n ==> pos <= Width(cs[i])
    ensures |r| == |cs| && CampaignIds(r) == CampaignIds(cs)
  {
    var r := seq(|cs|, i requires 0 <= i < |cs| => if i < n then WithSalesColumn(cs[i], pos, alias) else cs[i]);
    assert CampaignIds(r) == CampaignIds(cs);
    r
  }

  /** `agregar_item_funnel`: the item goes into the funnel under its new
      key; its sales column goes into the testing table just before the
      revenue column, unless the table has it; then, unless some campaign
      table already has the column, it goes into each campaign table, in
      order, at that same position. Each step's change stays in place when
      a later step stops with an exception. */
  function WithFunnelItem(o: Offer, kind: string, name: string, price: real): (r: (Offer, FunnelOutcome))
    ensures r.0.(funnel := o.funnel, testing := o.testing, campaigns := o.campaigns) == o
    ensures var (alias, key) := FunnelSlot(o.funnel, kind);
      r.0.funnel == PutEntry(o.funnel, key, FunnelItem(name, price, alias, Active))
    ensures r.1 == NoRevenueColumn <==>
      SalesColumn(FunnelSlot(o.funnel, kind).0) !in o.testing.columns && RevenueColumn !in o.testing.columns
    ensures SalesColumn(FunnelSlot(o.funnel, kind).0) in o.testing.columns ==> r.0.testing == o.testing
    ensures var pos := ColumnIndex(o.testing.columns, RevenueColumn);
      SalesColumn(FunnelSlot(o.funnel, kind).0) !in o.testing.columns && pos.Some? ==>
        r.0.testing == InsertSalesColumn(o.testing, pos.value, FunnelSlot(o.funnel, kind).0)
    ensures CampaignIds(r.0.campaigns) == CampaignIds(o.campaigns)
    ensures r.1 == UnboundPosition <==>
      var column := SalesColumn(FunnelSlot(o.funnel, kind).0);
      column in o.testing.columns && !SomeCampaignHas(o.campaigns, column) && o.campaigns != []
    ensures r.1 == UnboundPosition || r.1 == NoRevenueColumn ==>
      r.0.campaigns == o.campaigns && r.0.testing == o.testing
  {
    var (alias, key) := FunnelSlot(o.funnel, kind);
    var funneled := o.(funnel := PutEntry(o.funnel, key, FunnelItem(name, price, alias, Active)));
    var column := SalesColumn(alias);
    var inTesting := column in o.testing.columns;
    var pos := ColumnIndex(o.testing.columns, RevenueColumn);
    if !inTesting && pos.None? then (funneled, NoRevenueColumn)
    else
      var tested := if inTesting then funneled else funneled.(testing := InsertSalesColumn(o.testing, pos.value, alias));
      if SomeCampaignHas(o.campaigns, column) || o.campaigns == [] then (tested, ItemAdded(alias))
      else if inTesting then (tested, UnboundPosition)
      else
        match FirstNarrow(o.campaigns, pos.value)
        case None =>
          (tested.(campaigns := InsertIntoFirst(o.campaigns, |o.campaigns|, pos.value, alias)), ItemAdded(alias))
        case Some(n) =>
          (tested.(campaigns := InsertIntoFirst(o.campaigns, n, pos.value, alias)), PositionPastEnd(o.campaigns[n].id))
  }

  /** On a valid offer the item is always stored and the revenue column is
      always found, and the offer stays valid, whatever the outcome. */
  lemma FunnelItemValid(o: Offer, kind: string, name: string, price: real)
    requires ValidOffer(o)
    ensures var r := WithFunnelItem(o, kind, name, price);
      && ValidOffer(r.0)
      && r.1 != NoRevenueColumn
      && FunnelSlot(o.funnel, kind).1 in FunnelKeys(r.0.funnel)
  {
    var (alias, key) := FunnelSlot(o.funnel, kind);
    FunnelSlotNotPrincipal(o.funnel, kind);
    PutEntryValid(o.funnel, key, FunnelItem(name, price, alias, Active));
    var column := SalesColumn(alias);
    if column !in o.testing.columns {
      var pos := ColumnIndex(o.testing.columns, RevenueColumn).value;
      InsertSalesColumnValid(o.testing, pos, alias);
      InsertSalesColumnMeaning(o.testing, pos, alias);
      var u := InsertSalesColumn(o.testing, pos, alias);
      assert u.columns[pos + 1] == RevenueColumn;
    }
  }

  /** When the item is added, its sales column is in the testing table and
      in every campaign table: inserted now, or already there in some
      campaign (the source then adds it to none). A column inserted now
      sits just before the revenue column, in the testing table and at
      that same position in every campaign table, filled with 0. */
  lemma FunnelItemColumns(o: Offer, kind: string, name: string, price: real)
    requires WithFunnelItem(o, kind, name, price).1.ItemAdded?
    ensures var r := WithFunnelItem(o, kind, name, price);
      var column := SalesColumn(r.1.alias);
      && r.1.alias == FunnelSlot(o.funnel, kind).0
      && column in r.0.testing.columns
      && (SomeCampaignHas(o.campaigns, column) ||
          forall i :: 0 <= i < |r.0.campaigns| ==> column in r.0.campaigns[i].campaign.table.columns)
    ensures var r := WithFunnelItem(o, kind, name, price);
      var alias := FunnelSlot(o.funnel, kind).0;
      var pos := ColumnIndex(o.testing.columns, RevenueColumn);
      SalesColumn(alias) !in o.testing.columns ==>
        && pos.Some?
        && r.0.testing.columns[pos.value] == SalesColumn(alias)
        && r.0.testing.columns[pos.value + 1] == RevenueColumn
        && (forall j :: 0 <= j < |o.testing.rows| ==> r.0.testing.rows[j].sales == o.testing.rows[j].sales[alias := 0])
    ensures var r := WithFunnelItem(o, kind, name, price);
      SomeCampaignHas(o.campaigns, SalesColumn(FunnelSlot(o.funnel, kind).0)) || o.campaigns == [] ==>
        r.0.campaigns == o.campaigns
    ensures var r := WithFunnelItem(o, kind, name, price);
      var alias := FunnelSlot(o.funnel, kind).0;
      var pos := ColumnIndex(o.testing.columns, RevenueColumn);
      !SomeCampaignHas(o.campaigns, SalesColumn(alias)) && o.campaigns != [] ==>
        && SalesColumn(alias) !in o.testing.columns && pos.Some?
        && forall i :: 0 <= i < |o.campaigns| ==>
             pos.value <= Width(o.campaigns[i])
             && r.0.campaigns[i].campaign.table == InsertSalesColumn(o.campaigns[i].campaign.table, pos.value, alias)
  {
    var (alias, key) := FunnelSlot(o.funnel, kind);
    var column := SalesColumn(alias);
    var r := WithFunnelItem(o, kind, name, price);
    var pos := ColumnIndex(o.testing.columns, RevenueColumn);
    if column !in o.testing.columns {
      InsertSalesColumnMeaning(o.testing, pos.value, alias);
      var u := InsertSalesColumn(o.testing, pos.value, alias);
      assert u.columns[pos.value + 1..] == o.testing.columns[pos.value..];
      assert u.columns[pos.value + 1] == u.columns[pos.value + 1..][0];
    }
    if !SomeCampaignHas(o.campaigns, column) && o.campaigns != [] {
      forall i | 0 <= i < |r.0.campaigns| ensures column in r.0.campaigns[i].campaign.table.columns {
        InsertSalesColumnMeaning(o.campaigns[i].campaign.table, pos.value, alias);
      }
    }
  }

  /** When a campaign table is too narrow, the campaigns before it have the
      column and it and the ones after it are as they were. */
  lemma FunnelItemPartial(o: Offer, kind: string, name: string, price: real)
    requires WithFunnelItem(o, kind, name, price).1.PositionPastEnd?
    ensures var r := WithFunnelItem(o, kind, name, price);
      var column := SalesColumn(FunnelSlot(o.funnel, kind).0);
      exists n :: 0 <= n < |o.campaigns| && o.campaigns[n].id == r.1.campaignId
        && (forall i :: 0 <= i < n ==> column in r.0.campaigns[i].campaign.table.columns)
        && r.0.campaigns[n..] == o.campaigns[n..]
  {
    var (alias, key) := FunnelSlot(o.funnel, kind);
    var r := WithFunnelItem(o, kind, name, price);
    var pos := ColumnIndex(o.testing.columns, RevenueColumn).value;
    var n := FirstNarrow(o.campaigns, pos).value;
    forall i | 0 <= i < n ensures SalesColumn(alias) in r.0.campaigns[i].campaign.table.columns {
      InsertSalesColumnMeaning(o.campaigns[i].campaign.table, pos, alias);
    }
    assert r.0.campaigns[n..] == o.campaigns[n..];
  }

  // ----- testing ads -----

  datatype AdOutcome = AdAdded | EmptyName | DuplicateName

  /** `agregar_anuncio_testeo`: a new ad, switched on, at the end of the
      list, unless its name is empty or already taken. */
  function WithTestAd(ads: seq<Ad>, name: string): (r: (seq<Ad>, AdOutcome))
    ensures r.1 == AdAdded <==> name != [] && name !in AdNames(ads)
    ensures r.1 == AdAdded ==> r.0 == ads + [Ad(name, true)]
    ensures r.1 != AdAdded ==> r.0 == ads
  {
    if name != [] && name !in AdNames(ads) then (ads + [Ad(name, true)], AdAdded)
    else if name == [] then (ads, EmptyName)
    else (ads, DuplicateName)
  }

  /** Adding an ad keeps the ad names unique. */
  lemma TestAdDistinct(ads: seq<Ad>, name: string)
    requires Distinct(AdNames(ads))
    ensures Distinct(AdNames(WithTestAd(ads, name).0))
  {
    var r := WithTestAd(ads, name).0;
    if r != ads {
      var ns := AdNames(r);
      assert forall i :: 0 <= i < |ads| ==> ns[i] == AdNames(ads)[i];
      assert ns[|ads|] == name;
    }
  }

  // ----- switching things on and off -----

  /** The position of the first ad with a name. */
  function FirstNamed(ads: seq<Ad>, name: string): (r: Option<nat>)
    ensures r.None? <==> name !in AdNames(ads)
    ensures r.Some? ==> r.value < |ads| && ads[r.value].name == name
    ensures r.Some? ==> forall i :: 0 <= i < r.value ==> ads[i].name != name
    decreases |ads|
  {
    if ads == [] then None
    else if ads[0].name == name then Some(0)
    else
      assert forall i :: 1 <= i < |ads| ==> ads[i] == ads[1..][i - 1];
      match FirstNamed(ads[1..], name)
      case None => None
      case Some(k) => Some(k + 1)
  }

  /** `toggle_estado_anuncio` and `toggle_estado_componente_escala`: the
      first ad with the name switched over; without one, nothing changes. */
  function Toggled(ads: seq<Ad>, name: string): (r: seq<Ad>)
    ensures |r| == |ads| && AdNames(r) == AdNames(ads)
  {
    match FirstNamed(ads, name)
    case None => ads
    case Some(i) =>
      var r := ads[i := Ad(name, !ads[i].active)];
      assert AdNames(r) == AdNames(ads);
      r
  }

  /** Switching twice restores the list; switching changes exactly one
      ad's state, when some ad has the name. */
  lemma ToggleTwice(ads: seq<Ad>, name: string)
    ensures Toggled(Toggled(ads, name), name) == ads
    ensures name !in AdNames(ads) ==> Toggled(ads, name) == ads
    ensures name in AdNames(ads) ==> var i := FirstNamed(ads, name).value;
      Toggled(ads, name) == ads[i := Ad(name, !ads[i].active)]
  {
    match FirstNamed(ads, name)
    case None =>
    case Some(i) =>
      var once := Toggled(ads, name);
      var j := FirstNamed(once, name);
      assert once[i].name == name;
      assert j == Some(i);
  }

  /** Active becomes archived and archived becomes active. */
  function FlipStatus(s: ItemStatus): (r: ItemStatus)
    ensures r != s
  {
    if s == Active then Archived else Active
  }

  /** `toggle_estado_funnel_item`: the item under `key` switched between
      active and archived. */
  function ToggledItem(funnel: seq<FunnelEntry>, key: string): (r: seq<FunnelEntry>)
    ensures |r| == |funnel| && FunnelKeys(r) == FunnelKeys(funnel)
  {
    var r := seq(|funnel|, i requires 0 <= i < |funnel| =>
      if funnel[i].key == key then funnel[i].(item := funnel[i].item.(status := FlipStatus(funnel[i].item.status)))
      else funnel[i]);
    assert FunnelKeys(r) == FunnelKeys(funnel);
    r
  }

  /** Switching an item twice restores the funnel; switching keeps the
      funnel valid, names, prices and aliases included. */
  lemma ToggleItemTwice(funnel: seq<FunnelEntry>, key: string)
    ensures ToggledItem(ToggledItem(funnel, key), key) == funnel
    ensures forall i :: 0 <= i < |funnel| ==>
      ToggledItem(funnel, key)[i].item.(status := funnel[i].item.status) == funnel[i].item
    ensures forall i :: 0 <= i < |funnel| && funnel[i].key == key ==>
      ToggledItem(funnel, key)[i].item.status == FlipStatus(funnel[i].item.status)
    ensures forall i :: 0 <= i < |funnel| && funnel[i].key != key ==> ToggledItem(funnel, key)[i] == funnel[i]
    ensures ValidFunnel(funnel) && OnePrincipal(funnel) ==>
      ValidFunnel(ToggledItem(funnel, key)) && OnePrincipal(ToggledItem(funnel, key))
  {
    var twice := ToggledItem(ToggledItem(funnel, key), key);
    forall i | 0 <= i < |funnel| ensures twice[i] == funnel[i] {
      if funnel[i].key == key {
        assert FlipStatus(FlipStatus(funnel[i].item.status)) == funnel[i].item.status;
      }
    }
  }

  /** `toggle_estado_campana_escala`: the campaign under `id` switched on or off. */
  function ToggledCampaign(cs: seq<CampaignEntry>, id: string): (r: seq<CampaignEntry>)
    ensures |r| == |cs| && CampaignIds(r) == CampaignIds(cs)
  {
    var r := seq(|cs|, i requires 0 <= i < |cs| =>
      if cs[i].id == id then cs[i].(campaign := cs[i].campaign.(active := !cs[i].campaign.active)) else cs[i]);
    assert CampaignIds(r) == CampaignIds(cs);
    r
  }

  lemma ToggleCampaignTwice(cs: seq<CampaignEntry>, id: string)
    ensures ToggledCampaign(ToggledCampaign(cs, id), id) == cs
    ensures forall i :: 0 <= i < |cs| ==>
      ToggledCampaign(cs, id)[i].campaign.(active := cs[i].campaign.active) == cs[i].campaign
    ensures forall i :: 0 <= i < |cs| && cs[i].id == id ==>
      ToggledCampaign(cs, id)[i].campaign.active == !cs[i].campaign.active
    ensures forall i :: 0 <= i < |cs| && cs[i].id != id ==> ToggledCampaign(cs, id)[i] == cs[i]
  {
    var twice := ToggledCampaign(ToggledCampaign(cs, id), id);
    assert forall i :: 0 <= i < |cs| ==> twice[i] == cs[i];
  }

  /** `escala[id] = campaign`: the entry of `id` replaced where it stands,
      or a new entry at the end. */
  function PutCampaign(cs: seq<CampaignEntry>, id: string, c: Campaign): (r: seq<CampaignEntry>)
    ensures id in CampaignIds(r)
    ensures forall k :: k in CampaignIds(r) <==> k == id || k in CampaignIds(cs)
    ensures Distinct(CampaignIds(cs)) ==> Distinct(CampaignIds(r))
    ensures |r| == if id in CampaignIds(cs) then |cs| else |cs| + 1
    ensures forall i :: 0 <= i < |r| && r[i].id == id ==> r[i].campaign == c
    ensures forall i :: 0 <= i < |cs| && cs[i].id != id ==> r[i] == cs[i]
  {
    var ids := CampaignIds(cs);
    if id in ids then
      var r := seq(|cs|, i requires 0 <= i < |cs| => if cs[i].id == id then CampaignEntry(id, c) else cs[i]);
      assert CampaignIds(r) == ids;
      r
    else
      var r := cs + [CampaignEntry(id, c)];
      assert CampaignIds(r) == ids + [id];
      r
  }

  /** The campaign stored under an id. */
  function CampaignOf(o: Offer, id: string): Campaign
    requires id in CampaignIds(o.campaigns)
  {
    o.campaigns[CampaignIndex(o.campaigns, id).value].campaign
  }

  /** The offer with the campaign under `id` replaced, in place. */
  function WithCampaign(o: Offer, id: string, c: Campaign): (u: Offer)
    requires id in CampaignIds(o.campaigns)
    ensures CampaignIds(u.campaigns) == CampaignIds(o.campaigns)
    ensures u.(campaigns := o.campaigns) == o
    ensures |u.campaigns| == |o.campaigns|
    ensures forall i :: 0 <= i < |o.campaigns| ==>
      u.campaigns[i] == if i == CampaignIndex(o.campaigns, id).value then CampaignEntry(id, c) else o.campaigns[i]
  {
    var k := CampaignIndex(o.campaigns, id).value;
    var cs := o.campaigns[k := CampaignEntry(id, c)];
    assert CampaignIds(cs) == CampaignIds(o.campaigns);
    o.(campaigns := cs)
  }

  /** After the replacement, the campaign found under `id` is the new one. */
  lemma CampaignOfWith(o: Offer, id: string, c: Campaign)
    requires id in CampaignIds(o.campaigns)
    ensures CampaignOf(WithCampaign(o, id, c), id) == c
  {
    var u := WithCampaign(o, id, c);
    CampaignIndexByIds(u.campaigns, o.campaigns, id);
  }

  /** The position found for an id depends only on the ids, in order. */
  lemma {:induction false} CampaignIndexByIds(a: seq<CampaignEntry>, b: seq<CampaignEntry>, id: string)
    requires |a| == |b| && forall i :: 0 <= i < |a| ==> a[i].id == b[i].id
    ensures CampaignIndex(a, id) == CampaignIndex(b, id)
    decreases |a|
  {
    if a != [] && a[|a| - 1].id != id {
      CampaignIndexByIds(a[..|a| - 1], b[..|b| - 1], id);
    }
  }

  // ----- daily records -----

  /** The aliases of the active funnel items, in funnel order: the sales
      fields of the daily entry form. */
  function ActiveAliases(funnel: seq<FunnelEntry>): (aliases: seq<string>)
    ensures forall a :: a in aliases <==>
      exists i :: 0 <= i < |funnel| && funnel[i].item.status == Active && funnel[i].item.alias == a
    decreases |funnel|
  {
    if funnel == [] then []
    else
      var init := funnel[..|funnel| - 1];
      var last := funnel[|funnel| - 1];
      assert forall i :: 0 <= i < |init| ==> init[i] == funnel[i];
      ActiveAliases(init) + (if last.item.status == Active then [last.item.alias] else [])
  }

  /** Every alias of the form brings its sales column into the table. */
  lemma RecordColumnsHaveSales(labelColumn: string, aliases: seq<string>)
    ensures forall a :: a in aliases ==> SalesColumn(a) in RecordColumns(labelColumn, aliases)
  {
    forall a | a in aliases ensures SalesColumn(a) in RecordColumns(labelColumn, aliases) {
      var k :| 0 <= k < |aliases| && aliases[k] == a;
      assert RecordColumns(labelColumn, aliases)[4 + k] == SalesColumn(a);
    }
  }
}
