/**
  The market-intelligence vault: a list of offers seen in the market,
  newest first, that can be filed, edited, given a status, deleted and
  filtered for display.
 */
module Intelligence {
  import opened Base

  /** "💡 Idea", "⚙️ Modelando", "🧪 En Pruebas", "🗄️ Archivada". */
  datatype VaultStatus = Idea | Modeling | Trials | Archived

  datatype VaultEntry = VaultEntry(
    id: string,
    name: string,
    offerType: string,
    adsLink: string,
    offerLink: string,
    niche: string,
    language: string,
    activeAds: int,
    rating: int,
    worthTesting: string,
    comments: string,
    registered: string,
    status: VaultStatus)

  /** `"⭐" * rating + "☆" * (5 - rating)`, where a repeat count below 1
      gives the empty string. */
  function RatingStars(rating: int): (r: string)
    ensures 0 <= rating <= 5 ==> |r| == 5
    ensures |r| == (if rating > 0 then rating else 0) + (if rating < 5 then 5 - rating else 0)
  {
    Repeat('⭐', rating) + Repeat('☆', 5 - rating)
  }

  /** A rating from 0 to 5 shows that many full stars, then empty ones. */
  lemma RatingStarsLayout(rating: int)
    requires 0 <= rating <= 5
    ensures forall i :: 0 <= i < 5 ==> RatingStars(rating)[i] == if i < rating then '⭐' else '☆'
  {
    var full, empty := Repeat('⭐', rating), Repeat('☆', 5 - rating);
    assert forall i :: 0 <= i < 5 ==> RatingStars(rating)[i] == if i < rating then full[i] else empty[i - rating];
  }

  /** The entries without those carrying `id`, the others in order: each
      other entry as many times as it occurs (see `WithoutIdAppend` for
      the order). */
  function WithoutId(entries: seq<VaultEntry>, id: string): (r: seq<VaultEntry>)
    ensures |r| <= |entries|
    ensures forall e :: e in r <==> e in entries && e.id != id
    ensures forall e {:trigger Occurrences(r, e)} :: Occurrences(r, e) == if e.id != id then Occurrences(entries, e) else 0
    decreases |entries|
  {
    if entries == [] then []
    else
      var init, last := entries[..|entries| - 1], entries[|entries| - 1];
      assert entries == init + [last];
      var kept := WithoutId(init, id);
      FilterStep(kept, init, last, (e: VaultEntry) => e.id != id);
      if last.id != id then kept + [last] else kept
  }

  /** Deleting from a concatenation deletes from each part in turn, so the
      kept entries stay in vault order. */
  lemma {:induction false} WithoutIdAppend(a: seq<VaultEntry>, b: seq<VaultEntry>, id: string)
    ensures WithoutId(a + b, id) == WithoutId(a, id) + WithoutId(b, id)
    decreases |b|
  {
    if |b| == 0 {
      assert a + b == a;
    } else {
      var init := b[..|b| - 1];
      assert (a + b)[..|a + b| - 1] == a + init;
      WithoutIdAppend(a, init, id);
    }
  }

  /** Deleting an id nobody carries changes nothing, and deleting twice is
      deleting once. */
  lemma {:induction false} WithoutAbsentId(entries: seq<VaultEntry>, id: string)
    requires forall i :: 0 <= i < |entries| ==> entries[i].id != id
    ensures WithoutId(entries, id) == entries
    decreases |entries|
  {
    if entries != [] {
      var init, last := entries[..|entries| - 1], entries[|entries| - 1];
      WithoutAbsentId(init, id);
      assert last.id != id;
      assert entries == init + [last];
    }
  }

  lemma DeleteTwice(entries: seq<VaultEntry>, id: string)
    ensures WithoutId(WithoutId(entries, id), id) == WithoutId(entries, id)
  {
    var once := WithoutId(entries, id);
    assert forall i :: 0 <= i < |once| ==> once[i] in once;
    WithoutAbsentId(once, id);
  }

  /** The position of the first entry with an id. */
  function FirstWithId(entries: seq<VaultEntry>, id: string): (r: Option<nat>)
    ensures r.None? <==> forall i :: 0 <= i < |entries| ==> entries[i].id != id
    ensures r.Some? ==> r.value < |entries| && entries[r.value].id == id
    ensures r.Some? ==> forall i :: 0 <= i < r.value ==> entries[i].id != id
    decreases |entries|
  {
    if entries == [] then None
    else if entries[0].id == id then Some(0)
    else
      match FirstWithId(entries[1..], id)
      case None => None
      case Some(k) => Some(k + 1)
  }

  /** Whether the board shows an entry: archived ones only when they are
      not hidden, and with a type and a status among the chosen ones (an
      empty choice lets everything through). */
  predicate Shows(e: VaultEntry, hideArchived: bool, types: seq<string>, statuses: seq<VaultStatus>) {
    && (hideArchived ==> e.status != Archived)
    && (types != [] ==> e.offerType in types)
    && (statuses != [] ==> e.status in statuses)
  }

  /** The entries the board shows, in vault order: each shown entry as
      many times as it occurs (see `VisibleAppend` for the order). */
  function Visible(entries: seq<VaultEntry>, hideArchived: bool, types: seq<string>, statuses: seq<VaultStatus>): (r: seq<VaultEntry>)
    ensures |r| <= |entries|
    ensures forall e :: e in r <==> e in entries && Shows(e, hideArchived, types, statuses)
    ensures forall e {:trigger Occurrences(r, e)} :: Occurrences(r, e) ==
                 if Shows(e, hideArchived, types, statuses) then Occurrences(entries, e) else 0
    decreases |entries|
  {
    if entries == [] then []
    else
      var init, last := entries[..|entries| - 1], entries[|entries| - 1];
      assert entries == init + [last];
      var kept := Visible(init, hideArchived, types, statuses);
      FilterStep(kept, init, last, (e: VaultEntry) => Shows(e, hideArchived, types, statuses));
      if Shows(last, hideArchived, types, statuses) then kept + [last] else kept
  }

  /** Filtering a concatenation filters each part in turn, so the board
      keeps vault order. */
  lemma {:induction false} VisibleAppend(a: seq<VaultEntry>, b: seq<VaultEntry>, hideArchived: bool,
                                         types: seq<string>, statuses: seq<VaultStatus>)
    ensures Visible(a + b, hideArchived, types, statuses) ==
      Visible(a, hideArchived, types, statuses) + Visible(b, hideArchived, types, statuses)
    decreases |b|
  {
    if |b| == 0 {
      assert a + b == a;
    } else {
      var init := b[..|b| - 1];
      assert (a + b)[..|a + b| - 1] == a + init;
      VisibleAppend(a, init, hideArchived, types, statuses);
    }
  }

  /** With no filter at all the board shows the whole vault. */
  lemma {:induction false} NoFilterShowsAll(entries: seq<VaultEntry>)
    ensures Visible(entries, false, [], []) == entries
    decreases |entries|
  {
    if entries != [] {
      NoFilterShowsAll(entries[..|entries| - 1]);
      assert entries == entries[..|entries| - 1] + [entries[|entries| - 1]];
    }
  }

  /** The stored vault: the list the page edits in place. */
  class Vault {
    var entries: seq<VaultEntry>

    constructor ()
      ensures entries == []
    {
      entries := [];
    }

    /** Filing a new entry: it goes first. */
    method InsertFront(e: VaultEntry)
      modifies this
      ensures entries == [e] + old(entries)
    {
      entries := [e] + entries;
    }

    /** `eliminar_entrada_boveda`: every entry with the id goes. */
    method Delete(id: string)
      modifies this
      ensures entries == WithoutId(old(entries), id)
    {
      entries := WithoutId(entries, id);
    }

    /** The walk the two update helpers share: the first index whose entry
        has the id. */
    method Find(id: string) returns (k: Option<nat>)
      ensures k == FirstWithId(entries, id)
    {
      var i := 0;
      while i < |entries|
        invariant 0 <= i <= |entries|
        invariant forall j :: 0 <= j < i ==> entries[j].id != id
      {
        if entries[i].id == id {
          return Some(i);
        }
        i := i + 1;
      }
      return None;
    }

    /** `update_entrada_boveda`: the first entry with the id is replaced;
        without one, nothing changes. */
    method Update(id: string, data: VaultEntry)
      modifies this
      ensures var k := FirstWithId(old(entries), id);
        entries == if k.Some? then old(entries)[k.value := data] else old(entries)
    {
      var k := Find(id);
      if k.Some? {
        entries := entries[k.value := data];
      }
    }

    /** `update_boveda_status`: the first entry with the id gets the new
        status, nothing else of it changes. */
    method UpdateStatus(id: string, status: VaultStatus)
      modifies this
      ensures var k := FirstWithId(old(entries), id);
        entries == if k.Some? then old(entries)[k.value := old(entries)[k.value].(status := status)] else old(entries)
    {
      var k := Find(id);
      if k.Some? {
        entries := entries[k.value := entries[k.value].(status := status)];
      }
    }
  }
}
