/**
  The values an offer's tables are made of: funnel items (the principal
  product and its bumps, upsells and downsells), daily records, and the
  tables that hold them as ordered columns and rows.
 */
module Records {
  import opened Base
  import opened Calendar

  /** Alias of the principal product; its sales are the "PP sales". */
  const PrincipalAlias: string := "PP"

  /** Funnel key of the principal product. */
  const PrincipalKey: string := "principal"

  /** `get_safe_column_name`: the table column holding an item's sales. */
  function SalesColumn(alias: string): (c: string)
    ensures |c| == |alias| + 8
  {
    "Ventas: " + alias
  }

  /** Different aliases never share a sales column. */
  lemma SalesColumnInjective(a: string, b: string)
    requires SalesColumn(a) == SalesColumn(b)
    ensures a == b
  {
    assert a == SalesColumn(a)[8..];
    assert b == SalesColumn(b)[8..];
  }

  const RevenueColumn: string := "Facturación Total"

  /** Column layout of a fresh testing table. */
  const TestingColumns: seq<string> :=
    ["Fecha", "Anuncio", "Inversión", "Pagos Iniciados", SalesColumn(PrincipalAlias),
     RevenueColumn, "Ganancia Bruta", "Ganancia Neta", "ROAS Bruto", "ROAS Neto"]

  // ----- the funnel -----

  datatype ItemStatus = Active | Archived

  datatype FunnelItem = FunnelItem(name: string, price: real, alias: string, status: ItemStatus)

  /** The funnel is a dictionary from item key to item; its entries are
      kept in insertion order, as a Python dictionary iterates them. */
  datatype FunnelEntry = FunnelEntry(key: string, item: FunnelItem)

  function FunnelKeys(funnel: seq<FunnelEntry>): (ks: seq<string>)
    ensures |ks| == |funnel|
    ensures forall i :: 0 <= i < |funnel| ==> ks[i] == funnel[i].key
  {
    seq(|funnel|, i requires 0 <= i < |funnel| => funnel[i].key)
  }

  /** `funnel.values()`. */
  function FunnelItems(funnel: seq<FunnelEntry>): (items: seq<FunnelItem>)
    ensures |items| == |funnel|
    ensures forall i :: 0 <= i < |funnel| ==> items[i] == funnel[i].item
  {
    seq(|funnel|, i requires 0 <= i < |funnel| => funnel[i].item)
  }

  /** A dictionary holds every key once. */
  predicate ValidFunnel(funnel: seq<FunnelEntry>) {
    Distinct(FunnelKeys(funnel))
  }

  // ----- records -----

  /** One row of a testing or scale table: the date, the ad (or scale
      component) it belongs to, the spend, the checkouts started, the sales
      per funnel alias (an alias without a value in the row is absent), and
      the five derived metrics. */
  datatype Record = Record(
    date: Date,
    subject: string,
    investment: real,
    checkouts: int,
    sales: map<string, int>,
    revenue: real,
    grossProfit: real,
    netProfit: real,
    grossRoas: real,
    netRoas: real)

  /** `row.get('Ventas: <alias>', 0)`, with a missing value read as 0 (a
      pandas sum skips it). */
  function SalesOf(r: Record, alias: string): int {
    if alias in r.sales then r.sales[alias] else 0
  }

  /** Sales of the principal product recorded in a row. */
  function PpCount(r: Record): int {
    SalesOf(r, PrincipalAlias)
  }

  // ----- tables -----

  /** A data frame: its column names in order, and its rows. */
  datatype Table = Table(columns: seq<string>, rows: seq<Record>)

  /** Columns are unique, and every sales value a row holds sits in a column
      of the table. */
  predicate ValidTable(t: Table) {
    && Distinct(t.columns)
    && forall i, a :: 0 <= i < |t.rows| && a in t.rows[i].sales ==> SalesColumn(a) in t.columns
  }

  /** `columns.get_loc(name)`: the position of a column, if present. */
  function ColumnIndex(columns: seq<string>, name: string): (r: Option<nat>)
    ensures r.None? <==> name !in columns
    ensures r.Some? ==> r.value < |columns| && columns[r.value] == name
    ensures r.Some? ==> name !in columns[..r.value]
  {
    if columns == [] then None
    else if columns[0] == name then Some(0)
    else
      match ColumnIndex(columns[1..], name)
      case None => None
      case Some(k) =>
        assert columns[..k + 1] == [columns[0]] + columns[1..][..k];
        Some(k + 1)
  }

  /** `df.insert(pos, 'Ventas: <alias>', 0)`: a new sales column at `pos`,
      holding 0 in every row. */
  function InsertSalesColumn(t: Table, pos: nat, alias: string): (u: Table)
    requires pos <= |t.columns|
    ensures |u.columns| == |t.columns| + 1 && |u.rows| == |t.rows|
  {
    Table(t.columns[..pos] + [SalesColumn(alias)] + t.columns[pos..],
          seq(|t.rows|, i requires 0 <= i < |t.rows| =>
            t.rows[i].(sales := t.rows[i].sales[alias := 0])))
  }

  /** The new column sits at `pos`, the old columns keep their order around
      it, and every row keeps its values and gains a 0 for the new alias. */
  lemma InsertSalesColumnMeaning(t: Table, pos: nat, alias: string)
    requires pos <= |t.columns|
    ensures var u := InsertSalesColumn(t, pos, alias);
      && u.columns[pos] == SalesColumn(alias)
      && u.columns[..pos] == t.columns[..pos]
      && u.columns[pos + 1..] == t.columns[pos..]
      && forall i :: 0 <= i < |t.rows| ==>
           && u.rows[i].sales == t.rows[i].sales[alias := 0]
           && u.rows[i].(sales := t.rows[i].sales) == t.rows[i]
  {
    var u := InsertSalesColumn(t, pos, alias);
    assert u.columns[pos + 1..] == t.columns[pos..];
  }

  /** Inserting a column the table lacks keeps the table valid. */
  lemma InsertSalesColumnValid(t: Table, pos: nat, alias: string)
    requires ValidTable(t) && pos <= |t.columns| && SalesColumn(alias) !in t.columns
    ensures ValidTable(InsertSalesColumn(t, pos, alias))
  {
    var u := InsertSalesColumn(t, pos, alias);
    InsertedColumnsDistinct(t.columns, pos, SalesColumn(alias));
    forall i, a | 0 <= i < |u.rows| && a in u.rows[i].sales ensures SalesColumn(a) in u.columns {
      if a != alias {
        var k :| 0 <= k < |t.columns| && t.columns[k] == SalesColumn(a);
        if k < pos { assert u.columns[k] == t.columns[k]; }
        else { assert u.columns[k + 1] == t.columns[k]; }
      }
    }
  }

  lemma InsertedColumnsDistinct(columns: seq<string>, pos: nat, c: string)
    requires Distinct(columns) && pos <= |columns| && c !in columns
    ensures Distinct(columns[..pos] + [c] + columns[pos..])
  {
    var u := columns[..pos] + [c] + columns[pos..];
    forall i | 0 <= i < |u| ensures u[i] == (if i < pos then columns[i] else if i == pos then c else columns[i - 1]) {
    }
  }

  /** The column names a freshly computed record brings into a table: the
      fixed ones, its sales columns in funnel order, then the derived ones. */
  function RecordColumns(labelColumn: string, salesAliases: seq<string>): seq<string> {
    ["Fecha", labelColumn, "Inversión", "Pagos Iniciados"]
    + seq(|salesAliases|, i requires 0 <= i < |salesAliases| => SalesColumn(salesAliases[i]))
    + [RevenueColumn, "Ganancia Bruta", "Ganancia Neta", "ROAS Bruto", "ROAS Neto"]
  }

  /** The columns of `extra` that `columns` lacks, in order, each once:
      what `pd.concat` adds on the right. */
  function NewColumns(columns: seq<string>, extra: seq<string>): (r: seq<string>)
    ensures forall c :: c in r <==> c in extra && c !in columns
    ensures Distinct(r)
    decreases |extra|
  {
    if extra == [] then []
    else
      var last := extra[|extra| - 1];
      var init := NewColumns(columns, extra[..|extra| - 1]);
      if last in columns || last in init then init else init + [last]
  }

  /** `pd.concat([table, pd.DataFrame([record])], ignore_index=True)`: the
      row goes last, and the record's columns the table lacks are added at
      the right. */
  function AppendRow(t: Table, r: Record, recordColumns: seq<string>): (u: Table)
    ensures u.rows == t.rows + [r]
    ensures |t.columns| <= |u.columns| && u.columns[..|t.columns|] == t.columns
  {
    Table(t.columns + NewColumns(t.columns, recordColumns), t.rows + [r])
  }

  /** Appending keeps the table valid when the record's sales columns are
      among the columns it brings. */
  lemma AppendRowValid(t: Table, r: Record, recordColumns: seq<string>)
    requires ValidTable(t)
    requires forall a :: a in r.sales ==> SalesColumn(a) in recordColumns
    ensures ValidTable(AppendRow(t, r, recordColumns))
  {
    var u := AppendRow(t, r, recordColumns);
    var extra := NewColumns(t.columns, recordColumns);
    assert u.columns == t.columns + extra;
    DisjointConcatDistinct(t.columns, extra);
    forall i, a | 0 <= i < |u.rows| && a in u.rows[i].sales ensures SalesColumn(a) in u.columns {
      if i < |t.rows| {
        assert u.rows[i] == t.rows[i];
      }
    }
  }

  lemma DisjointConcatDistinct(a: seq<string>, b: seq<string>)
    requires Distinct(a) && Distinct(b)
    requires forall x :: x in b ==> x !in a
    ensures Distinct(a + b)
  {
    var u := a + b;
    forall i, j | 0 <= i < j < |u| ensures u[i] != u[j] {
      if i < |a| && j >= |a| {
        assert u[j] == b[j - |a|] && u[i] == a[i];
        assert b[j - |a|] in b;
      } else if i >= |a| {
        assert u[i] == b[i - |a|] && u[j] == b[j - |a|];
      } else {
        assert u[i] == a[i] && u[j] == a[j];
      }
    }
  }

  /** `df.drop(index).reset_index(drop=True)`: the row at `index` removed,
      the others closing up in order. */
  function DropRow(t: Table, index: nat): (u: Table)
    requires index < |t.rows|
    ensures u.columns == t.columns && |u.rows| == |t.rows| - 1
    ensures forall i :: 0 <= i < index ==> u.rows[i] == t.rows[i]
    ensures forall i :: index <= i < |u.rows| ==> u.rows[i] == t.rows[i + 1]
  {
    Table(t.columns, t.rows[..index] + t.rows[index + 1..])
  }

  /** `table.loc[index, col] = new[col]` for every column of `new` that the
      table has: the fixed columns, the sales of every alias whose column the
      table holds, and each derived metric whose column the table holds. */
  function Overwrite(columns: seq<string>, prior: Record, edited: Record): (r: Record)
    ensures r.date == edited.date && r.subject == edited.subject
    ensures r.investment == edited.investment && r.checkouts == edited.checkouts
    ensures forall a :: a in r.sales <==>
      a in prior.sales || (a in edited.sales && SalesColumn(a) in columns)
    ensures forall a :: a in r.sales ==>
      r.sales[a] == (if a in edited.sales && SalesColumn(a) in columns then edited.sales[a] else prior.sales[a])
  {
    var sales := map a | a in prior.sales.Keys + edited.sales.Keys
                         && (a in prior.sales || SalesColumn(a) in columns) ::
                   if a in edited.sales && SalesColumn(a) in columns then edited.sales[a] else prior.sales[a];
    Record(edited.date, edited.subject, edited.investment, edited.checkouts, sales,
           if RevenueColumn in columns then edited.revenue else prior.revenue,
           if "Ganancia Bruta" in columns then edited.grossProfit else prior.grossProfit,
           if "Ganancia Neta" in columns then edited.netProfit else prior.netProfit,
           if "ROAS Bruto" in columns then edited.grossRoas else prior.grossRoas,
           if "ROAS Neto" in columns then edited.netRoas else prior.netRoas)
  }

  /** Writing into a row keeps the table's columns, and its validity. */
  lemma OverwriteValid(t: Table, index: nat, edited: Record)
    requires ValidTable(t) && index < |t.rows|
    ensures ValidTable(Table(t.columns, t.rows[index := Overwrite(t.columns, t.rows[index], edited)]))
  {
  }
}
