/** The tag registry: a tag is looked up by its unique name and created on first use. */
module TagRepo {
  import opened Types
  import opened Store

  /** Where the tag called `name` sits in `rows`, if anywhere. */
  function TagIndex(rows: seq<TagRow>, name: string): (r: Option<nat>)
    ensures r.Some? ==> r.value < |rows| && rows[r.value].name == name
    ensures r.None? <==> forall j :: 0 <= j < |rows| ==> rows[j].name != name
  {
    IndexWhere(rows, (t: TagRow) => t.name == name)
  }

  /** The tag table, its id counter and the tag one lookup-or-insert handed back. */
  datatype TagStep = TagStep(rows: seq<TagRow>, nextId: int, tag: TagRow)

  /** `get_or_create_tag` as a transition of the tag table: an existing tag of that name is
      returned untouched, otherwise a new row with the next id is appended. */
  function GetOrCreate(rows: seq<TagRow>, nextId: int, name: string): (r: TagStep)
    ensures r.tag.name == name
    ensures r.tag in r.rows
    ensures (exists j :: 0 <= j < |rows| && rows[j].name == name) ==>
              r.rows == rows && r.nextId == nextId
    ensures (forall j :: 0 <= j < |rows| ==> rows[j].name != name) ==>
              r.tag == TagRow(nextId, name) && r.rows == rows + [r.tag] && r.nextId == nextId + 1
  {
    match TagIndex(rows, name)
    case Some(i) => TagStep(rows, nextId, rows[i])
    case None =>
      var t := TagRow(nextId, name);
      TagStep(rows + [t], nextId + 1, t)
  }

  /** The table stays well formed: ids stay distinct and below the counter, names unique. */
  lemma GetOrCreatePreservesValid(rows: seq<TagRow>, nextId: int, name: string)
    requires TagsValid(rows, nextId)
    ensures TagsValid(GetOrCreate(rows, nextId, name).rows, GetOrCreate(rows, nextId, name).nextId)
  {
    var r := GetOrCreate(rows, nextId, name);
    if TagIndex(rows, name).None? {
      assert r.rows == rows + [TagRow(nextId, name)];
      forall i, j | 0 <= i < j < |r.rows|
        ensures r.rows[i].id != r.rows[j].id && r.rows[i].name != r.rows[j].name
      {
        if j == |rows| {
          assert r.rows[i] == rows[i];
        }
      }
    }
  }

  /** Asking again for the same name returns the same tag and changes nothing. */
  lemma GetOrCreateIdempotent(rows: seq<TagRow>, nextId: int, name: string)
    requires TagsValid(rows, nextId)
    ensures var first := GetOrCreate(rows, nextId, name);
            GetOrCreate(first.rows, first.nextId, name) == first
  {
    var first := GetOrCreate(rows, nextId, name);
    GetOrCreatePreservesValid(rows, nextId, name);
    var k := TagIndex(first.rows, name);
    assert k.Some?;
    assert first.rows[k.value] == first.tag by {
      var m :| 0 <= m < |first.rows| && first.rows[m] == first.tag;
      assert first.rows[k.value].name == first.rows[m].name;
    }
  }

  /** After the call exactly one row carries the name: the one handed back. */
  lemma GetOrCreateSingleRow(rows: seq<TagRow>, nextId: int, name: string, j: int)
    requires TagsValid(rows, nextId)
    requires 0 <= j < |GetOrCreate(rows, nextId, name).rows|
    ensures GetOrCreate(rows, nextId, name).rows[j].name == name <==>
            GetOrCreate(rows, nextId, name).rows[j] == GetOrCreate(rows, nextId, name).tag
  {
    var r := GetOrCreate(rows, nextId, name);
    GetOrCreatePreservesValid(rows, nextId, name);
    var m :| 0 <= m < |r.rows| && r.rows[m] == r.tag;
    assert r.rows[m].name == name;
  }

  /** The tag table, its counter and the tags resolved for a list of names, in order. */
  datatype Resolved = Resolved(rows: seq<TagRow>, nextId: int, tags: seq<TagRow>)

  /** `get_or_create_tag` applied to each name in turn, as the tag loop does. */
  function ResolveTags(rows: seq<TagRow>, nextId: int, names: seq<string>): (r: Resolved)
    ensures |r.tags| == |names|
    ensures forall i :: 0 <= i < |names| ==> r.tags[i].name == names[i]
    ensures forall i :: 0 <= i < |names| ==> r.tags[i] in r.rows
    ensures rows <= r.rows && nextId <= r.nextId
    decreases |names|
  {
    if |names| == 0 then Resolved(rows, nextId, [])
    else
      var prev := ResolveTags(rows, nextId, names[..|names| - 1]);
      var step := GetOrCreate(prev.rows, prev.nextId, names[|names| - 1]);
      Resolved(step.rows, step.nextId, prev.tags + [step.tag])
  }

  /** Resolving a list of names keeps the table well formed. */
  lemma {:induction false} ResolveTagsPreservesValid(rows: seq<TagRow>, nextId: int, names: seq<string>)
    requires TagsValid(rows, nextId)
    ensures TagsValid(ResolveTags(rows, nextId, names).rows, ResolveTags(rows, nextId, names).nextId)
    decreases |names|
  {
    if |names| > 0 {
      var prev := ResolveTags(rows, nextId, names[..|names| - 1]);
      ResolveTagsPreservesValid(rows, nextId, names[..|names| - 1]);
      GetOrCreatePreservesValid(prev.rows, prev.nextId, names[|names| - 1]);
    }
  }

  /** Every row past the original table carries one of the resolved names (the original rows
      stay a prefix, by the contract of `ResolveTags`). */
  lemma {:induction false} ResolveTagsAddsOnlyNames(rows: seq<TagRow>, nextId: int, names: seq<string>, k: int)
    requires |rows| <= k < |ResolveTags(rows, nextId, names).rows|
    ensures ResolveTags(rows, nextId, names).rows[k].name in names
    decreases |names|
  {
    var r := ResolveTags(rows, nextId, names);
    if |names| > 0 {
      var init := names[..|names| - 1];
      var prev := ResolveTags(rows, nextId, init);
      if k < |prev.rows| {
        ResolveTagsAddsOnlyNames(rows, nextId, init, k);
        assert r.rows[k] == prev.rows[k];
        assert prev.rows[k].name in init;
      } else {
        assert r.rows[k].name == names[|names| - 1];
      }
    }
  }

  /** `get_or_create_tag`, acting on the tag table. */
  method GetOrCreateTag(db: Db, name: string) returns (tag: TagRow)
    modifies db`tags, db`nextTagId
    ensures var step := GetOrCreate(old(db.tags), old(db.nextTagId), name);
            db.tags == step.rows && db.nextTagId == step.nextId && tag == step.tag
  {
    var existing := TagIndex(db.tags, name);
    if existing.Some? {
      tag := db.tags[existing.value];
    } else {
      tag := TagRow(db.nextTagId, name);
      db.tags := db.tags + [tag];
      db.nextTagId := db.nextTagId + 1;
    }
  }
}
