/** src/pages/Vault/index.tsx: the blueprint vault. The saved blueprints live in a table
    keyed by `id` (a `put` replaces the record with the same id); the page lists them,
    narrows the list by a search filter, deletes by id and imports a JSON file of
    blueprints.

    The table is a map from id to record. `toArray` is an input to `Load`: any listing
    of the table's records, each once. The file's text is an input to `Import` already
    parsed: a parse failure with its message, a value that is not an array, or an array
    whose elements are records or `null`. */
module Vault {
  import opened Wrappers
  import opened Types
  import Text

  const InvalidFormat: string := "Invalid format: Expected an array of blueprints."
  const ParseFailure: string := "Failed to parse JSON file."
  /** What reading `.id` of a `null` element throws (the V8 wording). */
  const NullAccess: string := "Cannot read properties of null (reading 'id')"

  // ---------------------------------------------------------------------------------
  // Search filter

  /** The `filtered` predicate: the lowercased filter occurs in the lowercased name, the
      platform or the lowercased explanation. */
  predicate Matches(b: SavedBlueprint, filter: string) {
    var f := Text.ToLower(filter);
    || Text.Contains(Text.ToLower(b.name), f)
    || Text.Contains(PlatformId(b.result.platform), f)
    || Text.Contains(Text.ToLower(b.result.explanation), f)
  }

  /** `blueprints.filter(...)`. */
  function Filtered(bs: seq<SavedBlueprint>, filter: string): (r: seq<SavedBlueprint>)
    ensures |r| <= |bs|
    ensures forall b :: b in r <==> b in bs && Matches(b, filter)
  {
    if bs == [] then []
    else if Matches(bs[0], filter) then [bs[0]] + Filtered(bs[1..], filter)
    else Filtered(bs[1..], filter)
  }

  /** `a` is `b` with some elements left out, the rest in their order. */
  predicate IsSubsequence(a: seq<SavedBlueprint>, b: seq<SavedBlueprint>)
    decreases |b|
  {
    if a == [] then true
    else if b == [] then false
    else if a[0] == b[0] then IsSubsequence(a[1..], b[1..])
    else IsSubsequence(a, b[1..])
  }

  /** The filtered list keeps the vault's order. */
  lemma {:induction false} FilteredIsSubsequence(bs: seq<SavedBlueprint>, filter: string)
    ensures IsSubsequence(Filtered(bs, filter), bs)
  {
    if bs != [] {
      FilteredIsSubsequence(bs[1..], filter);
      if !Matches(bs[0], filter) {
        SubsequenceSkip(Filtered(bs[1..], filter), bs[0], bs[1..]);
      }
    }
  }

  lemma {:induction false} SubsequenceSkip(a: seq<SavedBlueprint>, x: SavedBlueprint, b: seq<SavedBlueprint>)
    requires IsSubsequence(a, b)
    ensures IsSubsequence(a, [x] + b)
    decreases |b|, 1
  {
    if a != [] && a[0] == x {
      assert ([x] + b)[1..] == b;
      SubsequenceDrop(a, b);
    } else {
      assert ([x] + b)[1..] == b;
    }
  }

  /** Dropping the first element of a subsequence keeps it a subsequence. */
  lemma {:induction false} SubsequenceDrop(a: seq<SavedBlueprint>, b: seq<SavedBlueprint>)
    requires a != [] && IsSubsequence(a, b)
    ensures IsSubsequence(a[1..], b)
    decreases |b|, 0
  {
    assert b != [];
    if a[0] == b[0] {
      SubsequenceSkip(a[1..], b[0], b[1..]);
      assert [b[0]] + b[1..] == b;
    } else {
      SubsequenceDrop(a, b[1..]);
      SubsequenceSkip(a[1..], b[0], b[1..]);
      assert [b[0]] + b[1..] == b;
    }
  }

  /** An empty filter keeps every blueprint. */
  lemma {:induction false} EmptyFilterKeepsAll(bs: seq<SavedBlueprint>)
    ensures Filtered(bs, "") == bs
  {
    if bs != [] {
      Text.ContainsEmpty(Text.ToLower(bs[0].name));
      assert Text.ToLower("") == "";
      EmptyFilterKeepsAll(bs[1..]);
    }
  }

  // ---------------------------------------------------------------------------------
  // Import

  /** An element of an imported array: `null`, or a record. */
  datatype ImportItem = NullItem | Record(blueprint: SavedBlueprint)

  /** The file as `JSON.parse` leaves it. */
  datatype Parsed = ParseError(message: string) | NotArray | Items(items: seq<ImportItem>)

  /** An element `put` stores: a record whose `id` is truthy. */
  predicate Stored(item: ImportItem) {
    item.Record? && item.blueprint.id != ""
  }

  /** The table after `put`ting the storable elements of `items` in order. */
  function Upsert(table: map<string, SavedBlueprint>, items: seq<ImportItem>): map<string, SavedBlueprint> {
    if items == [] then table
    else
      var t := Upsert(table, items[..|items| - 1]);
      var last := items[|items| - 1];
      if Stored(last) then t[last.blueprint.id := last.blueprint] else t
  }

  /** The last storable element of `items` with the given id: the one that wins. */
  function LastWithId(items: seq<ImportItem>, id: string): (r: Option<SavedBlueprint>)
    ensures r.Some? ==> r.value.id == id && id != "" && Record(r.value) in items
    ensures r.None? ==> forall item | item in items :: !(Stored(item) && item.blueprint.id == id)
  {
    if items == [] then None
    else
      var last := items[|items| - 1];
      if Stored(last) && last.blueprint.id == id then Some(last.blueprint)
      else
        var r := LastWithId(items[..|items| - 1], id);
        assert forall item | item in items :: item in items[..|items| - 1] || item == last;
        r
  }

  /** After an import each id holds the last element imported with that id, and ids no
      element carries keep what they held. */
  lemma {:induction false} UpsertLookup(table: map<string, SavedBlueprint>, items: seq<ImportItem>, id: string)
    ensures LastWithId(items, id).Some? ==>
      id in Upsert(table, items) && Upsert(table, items)[id] == LastWithId(items, id).value
    ensures LastWithId(items, id).None? ==>
      (id in Upsert(table, items) <==> id in table) && (id in table ==> Upsert(table, items)[id] == table[id])
  {
    if items != [] {
      UpsertLookup(table, items[..|items| - 1], id);
    }
  }

  /** The table keeps every record under its own id. */
  ghost predicate KeyedById(table: map<string, SavedBlueprint>) {
    forall k | k in table :: table[k].id == k
  }

  lemma {:induction false} UpsertKeyedById(table: map<string, SavedBlueprint>, items: seq<ImportItem>)
    requires KeyedById(table)
    ensures KeyedById(Upsert(table, items))
  {
    if items != [] {
      UpsertKeyedById(table, items[..|items| - 1]);
    }
  }

  /** How many leading elements are processed: up to the first `null`, whose `.id`
      throws. */
  function Processed(items: seq<ImportItem>): (n: nat)
    ensures n <= |items|
    ensures forall i | 0 <= i < n :: items[i].Record?
    ensures n < |items| ==> items[n] == NullItem
  {
    if items == [] then 0
    else if items[0] == NullItem then 0
    else 1 + Processed(items[1..])
  }

  /** `listing` holds each record of `table` exactly once. */
  ghost predicate Lists(listing: seq<SavedBlueprint>, table: map<string, SavedBlueprint>) {
    && (forall i | 0 <= i < |listing| :: listing[i].id in table && table[listing[i].id] == listing[i])
    && (forall k | k in table :: exists i | 0 <= i < |listing| :: listing[i].id == k)
    && (forall i, j | 0 <= i < j < |listing| :: listing[i].id != listing[j].id)
  }

  class VaultPage {
    var table: map<string, SavedBlueprint>
    var blueprints: seq<SavedBlueprint>
    var filter: string
    var error: Option<string>

    ghost predicate Valid()
      reads this
    {
      KeyedById(table)
    }

    constructor(stored: map<string, SavedBlueprint>)
      requires KeyedById(stored)
      ensures Valid() && table == stored && blueprints == [] && filter == "" && error == None
    {
      table, blueprints, filter, error := stored, [], "", None;
    }

    /** The list on screen. */
    function Shown(): (r: seq<SavedBlueprint>)
      reads this
      ensures IsSubsequence(r, blueprints)
      ensures forall b :: b in r <==> b in blueprints && Matches(b, filter)
    {
      FilteredIsSubsequence(blueprints, filter);
      Filtered(blueprints, filter)
    }

    method SetFilter(text: string)
      modifies this
      ensures filter == text && table == old(table) && blueprints == old(blueprints) && error == old(error)
    {
      filter := text;
    }

    /** `loadBlueprints`: the listing replaces the list; a failed read changes nothing. */
    method Load(listing: Outcome<seq<SavedBlueprint>>)
      requires listing.Resolved? ==> Lists(listing.value, table)
      modifies this
      ensures table == old(table) && filter == old(filter) && error == old(error)
      ensures listing.Resolved? ==> blueprints == listing.value && Lists(blueprints, table)
      ensures listing.Rejected? ==> blueprints == old(blueprints)
    {
      if listing.Resolved? {
        blueprints := listing.value;
      }
    }

    /** `deleteBlueprint` up to the reload: the record with that id leaves the table. */
    method Delete(id: string)
      requires Valid()
      modifies this
      ensures Valid()
      ensures table == old(table) - {id}
      ensures blueprints == old(blueprints) && filter == old(filter) && error == old(error)
    {
      table := table - {id};
    }

    /** `importVault`'s `onload` up to the reload. A parse failure sets its message (or the
        fallback); a non-array sets the format error and stores nothing; an array is
        upserted element by element until a `null` element throws, whose error is then
        set; otherwise the error is cleared. `reload` tells whether `loadBlueprints`
        follows. */
    method Import(parsed: Parsed) returns (reload: bool)
      requires Valid()
      modifies this
      ensures Valid()
      ensures blueprints == old(blueprints) && filter == old(filter)
      ensures reload <==> parsed.Items? && Processed(parsed.items) == |parsed.items|
      ensures parsed.ParseError? ==> table == old(table) && error == Some(MessageOr(parsed.message, ParseFailure))
      ensures parsed.NotArray? ==> table == old(table) && error == Some(InvalidFormat)
      ensures parsed.Items? ==>
        && table == Upsert(old(table), parsed.items[..Processed(parsed.items)])
        && error == if reload then None else Some(NullAccess)
    {
      match parsed {
        case ParseError(message) =>
          error := Some(MessageOr(message, ParseFailure));
          reload := false;
        case NotArray =>
          error := Some(InvalidFormat);
          reload := false;
        case Items(items) =>
          var n := Processed(items);
          var i := 0;
          while i < |items| && items[i].Record?
            invariant i <= n
            invariant Valid() && table == Upsert(old(table), items[..i])
            invariant blueprints == old(blueprints) && filter == old(filter) && error == old(error)
          {
            assert items[..i + 1][..i] == items[..i];
            UpsertKeyedById(old(table), items[..i + 1]);
            var b := items[i].blueprint;
            if b.id != "" {
              table := table[b.id := b];
            }
            i := i + 1;
          }
          assert i == n;
          if i < |items| {
            error := Some(NullAccess);
            reload := false;
          } else {
            error := None;
            reload := true;
          }
      }
    }
  }
}
