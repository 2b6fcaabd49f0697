/**
  The session state the application keeps: the offers by id, the
  checklist templates by id and the offer being viewed, with the
  operations that change them in place.
 */
module Session {
  import opened Base
  import opened Records
  import opened Checklist
  import opened Metrics
  import opened Offers

  /** An offer name already in use. */
  predicate NameTaken(offers: map<string, Offer>, name: string) {
    exists k :: k in offers && offers[k].name == name
  }

  /** The template a new offer draws its checklist from: the one under the
      given id, when an id is given and known. */
  function TemplateFor(templates: map<string, Template>, templateId: Option<string>): (t: Option<Template>)
    ensures t.Some? <==> templateId.Some? && templateId.value != [] && templateId.value in templates
  {
    if templateId.Some? && templateId.value != [] && templateId.value in templates
    then Some(templates[templateId.value]) else None
  }

  /** `toggle_estado_anuncio`, `toggle_estado_componente_escala`: walk the
      list and switch the first ad with the name, then stop. */
  method ToggleFirst(ads: seq<Ad>, name: string) returns (r: seq<Ad>)
    ensures r == Toggled(ads, name)
  {
    r := ads;
    var i := 0;
    while i < |r|
      invariant 0 <= i <= |r| && r == ads
      invariant forall j :: 0 <= j < i ==> ads[j].name != name
    {
      if r[i].name == name {
        assert FirstNamed(ads, name) == Some(i);
        r := r[i := Ad(name, !r[i].active)];
        return;
      }
      i := i + 1;
    }
    assert name !in AdNames(ads);
  }

  /** `crear_campana_escala`'s component list, built as the source builds
      it: one entry per copy for 1-1-X and 1-X-1 with a truthy X, else the
      base ad alone. */
  method BuildComponents(strategy: Strategy, baseAd: string, x: Option<int>) returns (cs: seq<Ad>)
    ensures cs == Components(strategy, baseAd, x)
  {
    cs := [];
    if (strategy == OneOneX || strategy == OneXOne) && Truthy(x) {
      ghost var n := if x.value > 0 then x.value else 0;
      var i := 1;
      while i <= x.value
        invariant 1 <= i <= n + 1
        invariant cs == Components(strategy, baseAd, x)[..i - 1]
      {
        var adName := if strategy == OneOneX then "[AD " + NatToString(i) + "] " + baseAd
                      else "Conjunto de Anuncios " + NatToString(i);
        cs := cs + [Ad(adName, true)];
        i := i + 1;
      }
    } else {
      cs := cs + [Ad(baseAd, true)];
    }
  }

  /** The campaign step of `agregar_item_funnel`: insert the sales column
      into each campaign table in turn, stopping at the first table too
      narrow for position `pos`. */
  method InsertIntoCampaigns(cs: seq<CampaignEntry>, pos: nat, alias: string)
    returns (r: seq<CampaignEntry>, stop: Option<nat>)
    ensures stop == FirstNarrow(cs, pos)
    ensures stop.None? ==> r == InsertIntoFirst(cs, |cs|, pos, alias)
    ensures stop.Some? ==> r == InsertIntoFirst(cs, stop.value, pos, alias)
  {
    r := cs;
    var i := 0;
    while i < |r|
      invariant 0 <= i <= |r| == |cs|
      invariant forall j :: 0 <= j < i ==> pos <= Width(cs[j])
      invariant r == InsertIntoFirst(cs, i, pos, alias)
    {
      if Width(r[i]) < pos {
        return r, Some(i);
      }
      r := r[i := WithSalesColumn(r[i], pos, alias)];
      i := i + 1;
    }
    stop := None;
  }

  class Workspace {
    var offers: map<string, Offer>
    var templates: map<string, Template>
    var selected: Option<string>

    /** Every offer is valid and no two offers share a name. */
    predicate Valid()
      reads this
    {
      && (forall k :: k in offers ==> ValidOffer(offers[k]))
      && (forall a, b :: a in offers && b in offers && a != b ==> offers[a].name != offers[b].name)
    }

    constructor (templates: map<string, Template>)
      ensures Valid() && offers == map[] && this.templates == templates && selected == None
    {
      offers := map[];
      this.templates := templates;
      selected := None;
    }

    /** Store an offer that keeps its name. */
    method Put(id: string, o: Offer)
      requires Valid() && id in offers && ValidOffer(o) && o.name == offers[id].name
      modifies this
      ensures Valid() && offers == old(offers)[id := o]
      ensures templates == old(templates) && selected == old(selected)
    {
      offers := offers[id := o];
    }

    /** `crear_nueva_oferta`: refused when the name is taken; otherwise the
        new offer is stored under `id` and becomes the one viewed. */
    method CreateOffer(id: string, name: string, funnelType: string, price: real, templateId: Option<string>)
      returns (created: bool)
      requires Valid()
      modifies this
      ensures Valid() && templates == old(templates)
      ensures created <==> !NameTaken(old(offers), name)
      ensures created ==> offers == old(offers)[id := NewOffer(name, funnelType, price, TemplateFor(templates, templateId))]
                          && selected == Some(id)
      ensures !created ==> offers == old(offers) && selected == old(selected)
    {
      if exists k :: k in offers && offers[k].name == name {
        return false;
      }
      offers := offers[id := NewOffer(name, funnelType, price, TemplateFor(templates, templateId))];
      selected := Some(id);
      created := true;
    }

    /** `seleccionar_oferta`. */
    method SelectOffer(id: string)
      modifies this
      ensures selected == Some(id) && offers == old(offers) && templates == old(templates)
    {
      selected := Some(id);
    }

    /** `cambiar_estado_oferta`. */
    method SetStatus(id: string, status: OfferStatus)
      requires Valid() && id in offers
      modifies this
      ensures Valid() && offers == old(offers)[id := old(offers)[id].(status := status)]
      ensures templates == old(templates) && selected == old(selected)
    {
      Put(id, offers[id].(status := status));
    }

    /** `eliminar_oferta`: a known offer is removed and nothing stays
        selected; an unknown id changes nothing. */
    method DeleteOffer(id: string)
      requires Valid()
      modifies this
      ensures Valid() && templates == old(templates)
      ensures id in old(offers) ==> offers == old(offers) - {id} && selected == None
      ensures id !in old(offers) ==> offers == old(offers) && selected == old(selected)
    {
      if id in offers {
        offers := offers - {id};
        selected := None;
      }
    }

    /** `actualizar_configuracion_financiera`. */
    method SetFinancials(id: string, commission: real, cpaTarget: real)
      requires Valid() && id in offers
      modifies this
      ensures Valid() && offers == old(offers)[id := old(offers)[id].(commission := commission, cpaTarget := cpaTarget)]
      ensures templates == old(templates) && selected == old(selected)
    {
      Put(id, offers[id].(commission := commission, cpaTarget := cpaTarget));
    }

    /** `eliminar_registro_testeo`. */
    method DeleteTestRecord(id: string, index: nat)
      requires Valid() && id in offers && index < |offers[id].testing.rows|
      modifies this
      ensures Valid() && offers == old(offers)[id := old(offers)[id].(testing := DropRow(old(offers)[id].testing, index))]
      ensures templates == old(templates) && selected == old(selected)
    {
      var o := offers[id];
      Put(id, o.(testing := DropRow(o.testing, index)));
    }

    /** `eliminar_registro_escala`. */
    method DeleteScaleRecord(id: string, campaignId: string, index: nat)
      requires Valid() && id in offers && campaignId in CampaignIds(offers[id].campaigns)
      requires index < |CampaignOf(offers[id], campaignId).table.rows|
      modifies this
      ensures Valid()
      ensures var o := old(offers)[id]; var c := CampaignOf(o, campaignId);
        offers == old(offers)[id := WithCampaign(o, campaignId, c.(table := DropRow(c.table, index)))]
      ensures templates == old(templates) && selected == old(selected)
    {
      var o := offers[id];
      var c := CampaignOf(o, campaignId);
      Put(id, WithCampaign(o, campaignId, c.(table := DropRow(c.table, index))));
    }

    /** `actualizar_registro_testeo`: the edited entry's metrics are
        computed against the offer's funnel and commission, then written
        into the row, column by column, where the table has the column. */
    method UpdateTestRecord(id: string, index: nat, raw: Record)
      requires Valid() && id in offers && index < |offers[id].testing.rows|
      modifies this
      ensures Valid()
      ensures var o := old(offers)[id]; var t := o.testing;
        var computed := WithMetrics(raw, FunnelItems(o.funnel), o.commission);
        offers == old(offers)[id := o.(testing := Table(t.columns, t.rows[index := Overwrite(t.columns, t.rows[index], computed)]))]
      ensures templates == old(templates) && selected == old(selected)
    {
      var o := offers[id];
      var entry := new DailyEntry(raw);
      entry.ComputeMetrics(FunnelItems(o.funnel), o.commission);
      var computed := entry.Value();
      var t := o.testing;
      OverwriteValid(t, index, computed);
      Put(id, o.(testing := Table(t.columns, t.rows[index := Overwrite(t.columns, t.rows[index], computed)])));
    }

    /** `actualizar_registro_escala`: the same, in a campaign's table. */
    method UpdateScaleRecord(id: string, campaignId: string, index: nat, raw: Record)
      requires Valid() && id in offers && campaignId in CampaignIds(offers[id].campaigns)
      requires index < |CampaignOf(offers[id], campaignId).table.rows|
      modifies this
      ensures Valid()
      ensures var o := old(offers)[id]; var c := CampaignOf(o, campaignId); var t := c.table;
        var computed := WithMetrics(raw, FunnelItems(o.funnel), o.commission);
        offers == old(offers)[id := WithCampaign(o, campaignId,
          c.(table := Table(t.columns, t.rows[index := Overwrite(t.columns, t.rows[index], computed)])))]
      ensures templates == old(templates) && selected == old(selected)
    {
      var o := offers[id];
      var entry := new DailyEntry(raw);
      entry.ComputeMetrics(FunnelItems(o.funnel), o.commission);
      var computed := entry.Value();
      var c := CampaignOf(o, campaignId);
      var t := c.table;
      Put(id, WithCampaign(o, campaignId, c.(table := Table(t.columns, t.rows[index := Overwrite(t.columns, t.rows[index], computed)]))));
    }

    /** The daily entry form of the testing phase: the record's metrics are
        computed, and it goes last in the testing table, bringing the
        columns the table lacks. The form offers one sales field per active
        funnel item. */
    method AppendTestRecord(id: string, raw: Record)
      requires Valid() && id in offers
      requires forall a :: a in raw.sales ==> a in ActiveAliases(offers[id].funnel)
      modifies this
      ensures Valid()
      ensures var o := old(offers)[id];
        var computed := WithMetrics(raw, FunnelItems(o.funnel), o.commission);
        offers == old(offers)[id := o.(testing := AppendRow(o.testing, computed, RecordColumns("Anuncio", ActiveAliases(o.funnel))))]
      ensures templates == old(templates) && selected == old(selected)
    {
      var o := offers[id];
      var entry := new DailyEntry(raw);
      entry.ComputeMetrics(FunnelItems(o.funnel), o.commission);
      var computed := entry.Value();
      var columns := RecordColumns("Anuncio", ActiveAliases(o.funnel));
      RecordColumnsHaveSales("Anuncio", ActiveAliases(o.funnel));
      AppendRowValid(o.testing, computed, columns);
      Put(id, o.(testing := AppendRow(o.testing, computed, columns)));
    }

    /** `agregar_registro_escala`: the same, last in a campaign's table. */
    method AppendScaleRecord(id: string, campaignId: string, raw: Record)
      requires Valid() && id in offers && campaignId in CampaignIds(offers[id].campaigns)
      modifies this
      ensures Valid()
      ensures var o := old(offers)[id]; var c := CampaignOf(o, campaignId);
        var computed := WithMetrics(raw, FunnelItems(o.funnel), o.commission);
        offers == old(offers)[id := WithCampaign(o, campaignId,
          c.(table := AppendRow(c.table, computed, RecordColumns("Componente", ActiveAliases(o.funnel)))))]
      ensures templates == old(templates) && selected == old(selected)
    {
      var o := offers[id];
      var entry := new DailyEntry(raw);
      entry.ComputeMetrics(FunnelItems(o.funnel), o.commission);
      var computed := entry.Value();
      var c := CampaignOf(o, campaignId);
      Put(id, WithCampaign(o, campaignId, c.(table := AppendRow(c.table, computed, RecordColumns("Componente", ActiveAliases(o.funnel))))));
    }

    /** `agregar_item_funnel`, step by step: the funnel entry, the testing
        column, then the campaign tables one after the other, stopping at
        the first one the insert fails on. */
    method AddFunnelItem(id: string, kind: string, name: string, price: real) returns (outcome: FunnelOutcome)
      requires Valid() && id in offers
      modifies this
      ensures Valid()
      ensures var r := WithFunnelItem(old(offers)[id], kind, name, price);
        offers == old(offers)[id := r.0] && outcome == r.1
      ensures templates == old(templates) && selected == old(selected)
    {
      var o := offers[id];
      FunnelItemValid(o, kind, name, price);
      var (alias, key) := FunnelSlot(o.funnel, kind);
      var updated := o.(funnel := PutEntry(o.funnel, key, FunnelItem(name, price, alias, Active)));
      var column := SalesColumn(alias);
      var pos := None;
      if column !in o.testing.columns {
        pos := ColumnIndex(o.testing.columns, RevenueColumn);
        updated := updated.(testing := InsertSalesColumn(o.testing, pos.value, alias));
      }
      outcome := ItemAdded(alias);
      if !SomeCampaignHas(o.campaigns, column) && o.campaigns != [] {
        if pos.None? {
          outcome := UnboundPosition;
        } else {
          var cs, stop := InsertIntoCampaigns(o.campaigns, pos.value, alias);
          updated := updated.(campaigns := cs);
          if stop.Some? {
            outcome := PositionPastEnd(o.campaigns[stop.value].id);
          }
        }
      }
      Put(id, updated);
    }

    /** `agregar_anuncio_testeo`. */
    method AddTestAd(id: string, name: string) returns (outcome: AdOutcome)
      requires Valid() && id in offers
      modifies this
      ensures Valid()
      ensures var r := WithTestAd(old(offers)[id].ads, name);
        offers == old(offers)[id := old(offers)[id].(ads := r.0)] && outcome == r.1
      ensures templates == old(templates) && selected == old(selected)
    {
      var o := offers[id];
      TestAdDistinct(o.ads, name);
      if name != [] && name !in AdNames(o.ads) {
        Put(id, o.(ads := o.ads + [Ad(name, true)]));
        outcome := AdAdded;
      } else if name == [] {
        Put(id, o);
        outcome := EmptyName;
      } else {
        Put(id, o);
        outcome := DuplicateName;
      }
    }

    /** `toggle_estado_anuncio`. */
    method ToggleAd(id: string, name: string)
      requires Valid() && id in offers
      modifies this
      ensures Valid()
      ensures offers == old(offers)[id := old(offers)[id].(ads := Toggled(old(offers)[id].ads, name))]
      ensures templates == old(templates) && selected == old(selected)
    {
      var o := offers[id];
      var ads := ToggleFirst(o.ads, name);
      Put(id, o.(ads := ads));
    }

    /** `toggle_estado_funnel_item`. */
    method ToggleFunnelItem(id: string, key: string)
      requires Valid() && id in offers && key in FunnelKeys(offers[id].funnel)
      modifies this
      ensures Valid()
      ensures offers == old(offers)[id := old(offers)[id].(funnel := ToggledItem(old(offers)[id].funnel, key))]
      ensures templates == old(templates) && selected == old(selected)
    {
      var o := offers[id];
      ToggleItemTwice(o.funnel, key);
      Put(id, o.(funnel := ToggledItem(o.funnel, key)));
    }

    /** `toggle_estado_campana_escala`. */
    method ToggleCampaign(id: string, campaignId: string)
      requires Valid() && id in offers && campaignId in CampaignIds(offers[id].campaigns)
      modifies this
      ensures Valid()
      ensures offers == old(offers)[id := old(offers)[id].(campaigns := ToggledCampaign(old(offers)[id].campaigns, campaignId))]
      ensures templates == old(templates) && selected == old(selected)
    {
      var o := offers[id];
      Put(id, o.(campaigns := ToggledCampaign(o.campaigns, campaignId)));
    }

    /** `toggle_estado_componente_escala`. */
    method ToggleComponent(id: string, campaignId: string, name: string)
      requires Valid() && id in offers && campaignId in CampaignIds(offers[id].campaigns)
      modifies this
      ensures Valid()
      ensures var o := old(offers)[id]; var c := CampaignOf(o, campaignId);
        offers == old(offers)[id := WithCampaign(o, campaignId, c.(components := Toggled(c.components, name)))]
      ensures templates == old(templates) && selected == old(selected)
    {
      var o := offers[id];
      var c := CampaignOf(o, campaignId);
      var components := ToggleFirst(c.components, name);
      Put(id, WithCampaign(o, campaignId, c.(components := components)));
    }

    /** `crear_campana_escala`: the new campaign stored under `campaignId`. */
    method CreateCampaign(id: string, campaignId: string, name: string, baseAd: string, strategy: Strategy,
                          budget: real, x: Option<int>)
      requires Valid() && id in offers
      modifies this
      ensures Valid()
      ensures var o := old(offers)[id];
        offers == old(offers)[id := o.(campaigns := PutCampaign(o.campaigns, campaignId,
          NewCampaign(o.funnel, name, baseAd, strategy, budget, x)))]
      ensures templates == old(templates) && selected == old(selected)
    {
      var o := offers[id];
      var components := BuildComponents(strategy, baseAd, x);
      var c := Campaign(name, baseAd, strategy, x, budget, Table(ScaleColumns(o.funnel), []), components, true);
      Put(id, o.(campaigns := PutCampaign(o.campaigns, campaignId, c)));
    }

    /** `agregar_componente_a_campana`: a new component, switched on, at the
        end of the campaign's list. */
    method AddComponent(id: string, campaignId: string, name: string)
      requires Valid() && id in offers && campaignId in CampaignIds(offers[id].campaigns)
      modifies this
      ensures Valid()
      ensures var o := old(offers)[id]; var c := CampaignOf(o, campaignId);
        offers == old(offers)[id := WithCampaign(o, campaignId, c.(components := c.components + [Ad(name, true)]))]
      ensures templates == old(templates) && selected == old(selected)
    {
      var o := offers[id];
      var c := CampaignOf(o, campaignId);
      Put(id, WithCampaign(o, campaignId, c.(components := c.components + [Ad(name, true)])));
    }
  }
}
