/** `update_archiveresult_ids`: the pass over every Tag that repairs its name
    and slug, deletes the tags that have neither, and installs a freshly derived
    ABID's uuid as the tag's new `id`. */
module TagMigration {
  import opened Values
  import opened AbidDerivation

  /** The ABID settings every surviving tag is given before its ABID is derived. */
  const TagPrefix: string := "tag_"
  const TagSubtype: string := "03"
  const TagClassName: string := "Tag"

  /** One row of the Tag table: the columns the pass reads or writes. `uuid` is
      what `getattr(tag, 'uuid', None)` finds (`Null` when there is no such
      attribute); `id` is the nullable UUID column the pass fills. */
  datatype TagRow = TagRow(
    pk: Value, oldId: Value, uuid: Value, id: Value,
    created: Option<int>, name: string, slug: string, abid: Option<Abid>)

  /** `ABID.parse`, whose internals are not part of this model: `None` when it raises. */
  type Parser = Abid -> Option<Abid>

  /** What the pass calls but this model does not define: the ABID encoder, the
      ABID parser, and `str(tag)` as a function of the tag's primary key. */
  datatype Env = Env(encode: Encoder, parse: Parser, display: Value -> string)

  datatype MigrationError =
    | Derivation(cause: Error)   // `calculate_abid` raised
    | RoundTripFailed(id: Value) // parsing the saved ABID raised or gave a uuid other than `id`

  /** A failure stops the pass; `index` is the table position of the tag. */
  datatype Failure = Failure(index: nat, error: MigrationError)

  // ---------------------------------------------------------------------------
  // Name and slug repair
  // ---------------------------------------------------------------------------

  /** `name.lower().replace(' ', '_')`: position by position, a space becomes
      `_` and an ASCII letter is lowered. */
  function SlugFromName(name: string): (slug: string)
    ensures |slug| == |name|
    ensures forall i :: 0 <= i < |name| ==>
              slug[i] == if name[i] == ' ' then '_' else LowerChar(name[i])
  {
    ReplaceChar(Lower(name), ' ', '_')
  }

  /** A slug derived from a name has the name's length, no spaces and no
      upper-case ASCII letters; in particular it is empty only for an empty name. */
  lemma SlugFromNameShape(name: string)
    ensures |SlugFromName(name)| == |name|
    ensures SlugFromName(name) == "" <==> name == ""
    ensures forall i :: 0 <= i < |name| ==>
              SlugFromName(name)[i] != ' ' && !('A' <= SlugFromName(name)[i] <= 'Z')
  {
  }

  /** The name and slug after the repair: the slug is filled from the name
      first, then the name from the (possibly just filled) slug. A non-empty
      field is never touched; both end up non-empty exactly when at least one
      was non-empty on entry, and both empty exactly when both were. */
  function RepairNames(name: string, slug: string): (names: (string, string))
    ensures name != "" ==> names.0 == name
    ensures slug != "" ==> names.1 == slug
    ensures slug == "" ==> names.1 == SlugFromName(name)
    ensures name == "" ==> names.0 == names.1
    ensures (names.0 != "" && names.1 != "") <==> (name != "" || slug != "")
    ensures (names.0 == "" && names.1 == "") <==> (name == "" && slug == "")
  {
    var slug' := if slug == "" then SlugFromName(name) else slug;
    var name' := if name == "" then slug' else name;
    (name', slug')
  }

  // ---------------------------------------------------------------------------
  // One tag
  // ---------------------------------------------------------------------------

  /** The fixed ABID sources of a tag: prefix `tag_`, `self.created`,
      `self.slug`, the constant `"03"` and `self.old_id`. */
  function TagSources(row: TagRow): Sources {
    Sources(TagPrefix, row.created, row.slug, TagSubtype, row.oldId)
  }

  /** What `calculate_abid` reads from the tag itself for its placeholders. */
  function TagRecord(env: Env, row: TagRow): Record {
    Record(env.display(row.pk), TagClassName, row.uuid, row.id, row.pk)
  }

  /** `str(ABID.parse(tag.abid).uuid) == str(tag.id)`. */
  predicate UuidRoundTrips(env: Env, abid: Abid, id: Value) {
    env.parse(abid).Some? && Text(env.parse(abid).value.uuid) == id
  }

  /** What happens to one tag: deleted, saved with the given row, or a failure
      raised before the save or after it (the round-trip check follows the save). */
  datatype Outcome =
    | Deleted
    | Saved(row: TagRow)
    | FailedBeforeSave(error: MigrationError)
    | FailedAfterSave(row: TagRow, error: MigrationError)

  /** One iteration of the loop body, on the tag's row as read from the table.
      The tag is deleted exactly when its name and slug are both empty. A row
      that is saved has its name and slug repaired and non-empty, the ABID that
      `calculate_abid` derives from `tag_`, `created`, the repaired slug, `"03"`
      and `old_id`, and `id` set to that ABID's uuid; every other column is as
      it was. The tag fails after the save exactly when the round trip fails,
      and before it exactly when `calculate_abid` raises. */
  function MigrateTag(env: Env, row: TagRow): (o: Outcome)
    ensures o.Deleted? <==> row.name == "" && row.slug == ""
    ensures o.Saved? || o.FailedAfterSave? ==>
      var r := o.row;
      r.name != "" && r.slug != ""
      && (r.name, r.slug) == RepairNames(row.name, row.slug)
      && r.abid.Some?
      && CalculateAbid(env.encode, Sources(TagPrefix, row.created, r.slug, TagSubtype, row.oldId),
                       TagRecord(env, row)) == Ok(r.abid.value)
      && r.id == Text(r.abid.value.uuid)
      && r.pk == row.pk && r.oldId == row.oldId && r.uuid == row.uuid && r.created == row.created
    ensures o.Saved? ==> UuidRoundTrips(env, o.row.abid.value, o.row.id)
    ensures o.FailedAfterSave? ==>
      !UuidRoundTrips(env, o.row.abid.value, o.row.id) && o.error == RoundTripFailed(o.row.id)
    ensures o.FailedBeforeSave? ==>
      CalculateAbid(env.encode, Sources(TagPrefix, row.created, RepairNames(row.name, row.slug).1,
                                        TagSubtype, row.oldId), TagRecord(env, row)).Err?
      && o.error == Derivation(CalculateAbid(env.encode,
           Sources(TagPrefix, row.created, RepairNames(row.name, row.slug).1, TagSubtype, row.oldId),
           TagRecord(env, row)).error)
  {
    var names := RepairNames(row.name, row.slug);
    if names.0 == "" && names.1 == "" then Deleted
    else
      var repaired := row.(name := names.0, slug := names.1);
      match CalculateAbid(env.encode, TagSources(repaired), TagRecord(env, repaired))
      case Err(e) => FailedBeforeSave(Derivation(e))
      case Ok(abid) =>
        var saved := repaired.(abid := Some(abid), id := Text(abid.uuid));
        if UuidRoundTrips(env, abid, saved.id) then Saved(saved)
        else FailedAfterSave(saved, RoundTripFailed(saved.id))
  }

  /** The codec behaves as `calculate_abid` and the round-trip check expect:
      every encoded ABID has all three representations, and parsing it gives
      back its uuid. */
  ghost predicate SoundCodec(env: Env) {
    forall inp: Inputs {:trigger env.encode(inp)} ::
      Complete(env.encode(inp)) && env.parse(env.encode(inp)).Some?
      && env.parse(env.encode(inp)).value.uuid == env.encode(inp).uuid
  }

  /** With a sound codec no tag fails: the prefix `tag_` is never rejected and
      the round-trip check always holds. */
  lemma MigrateTagNeverFails(env: Env, row: TagRow)
    requires SoundCodec(env)
    ensures MigrateTag(env, row).Deleted? || MigrateTag(env, row).Saved?
  {
  }

  /** Migrating a saved tag again saves the same row, provided the rand input
      did not come from `tag.id` (which the first pass overwrote): that is, the
      tag has a truthy `old_id`, or a truthy `uuid` that takes precedence. */
  lemma MigrateTagIdempotent(env: Env, row: TagRow)
    requires MigrateTag(env, row).Saved?
    requires Truthy(row.oldId) || Truthy(row.uuid)
    ensures MigrateTag(env, MigrateTag(env, row).row) == MigrateTag(env, row)
  {
  }

  /** Without such a rand source a second pass can change the id: the first
      pass derives from `pk`, the second from the `id` the first one wrote. */
  lemma RerunChangesIdWithoutOldId()
    ensures var env := Env(
              (inp: Inputs) => Abid("01", if inp.rand.Text? then inp.rand.s + "0" else "1", "tag_01"),
              (a: Abid) => Some(a),
              (pk: Value) => "Tag object");
            var row := TagRow(Int(7), Null, Null, Null, None, "news", "", None);
            MigrateTag(env, row).Saved?
            && MigrateTag(env, MigrateTag(env, row).row).Saved?
            && MigrateTag(env, MigrateTag(env, row).row).row.id != MigrateTag(env, row).row.id
  {
  }

  // ---------------------------------------------------------------------------
  // The whole pass
  // ---------------------------------------------------------------------------

  /** The table as the pass sees it: its rows in iteration order, the positions
      deleted so far, and the failure that stopped the pass, if any. */
  datatype State = State(rows: seq<TagRow>, deleted: set<nat>, failure: Option<Failure>)

  /** The pass visiting position `i`: a deleted row is not yielded by the
      query, and after a failure nothing more happens. Only row `i` can be
      written, only position `i` can become deleted, and a new failure is
      reported at `i`. */
  function Step(env: Env, s: State, i: nat): (t: State)
    requires i < |s.rows|
    ensures |t.rows| == |s.rows|
    ensures s.failure.Some? || i in s.deleted ==> t == s
    ensures forall j :: 0 <= j < |s.rows| && j != i ==> t.rows[j] == s.rows[j]
    ensures s.deleted <= t.deleted <= s.deleted + {i}
    ensures s.failure.None? && t.failure.Some? ==> t.failure.value.index == i
  {
    if s.failure.Some? || i in s.deleted then s
    else match MigrateTag(env, s.rows[i])
      case Deleted => s.(deleted := s.deleted + {i})
      case Saved(r) => s.(rows := s.rows[i := r])
      case FailedBeforeSave(e) => s.(failure := Some(Failure(i, e)))
      case FailedAfterSave(r, e) => s.(rows := s.rows[i := r], failure := Some(Failure(i, e)))
  }

  /** The state after the pass has visited the first `n` positions: rows from
      `n` on are untouched, deletions only grow and lie before `n`, a failed
      state stays as it is, and a failure is reported at a visited position. */
  function Run(env: Env, s: State, n: nat): (t: State)
    requires n <= |s.rows|
    ensures |t.rows| == |s.rows|
    ensures forall j :: n <= j < |s.rows| ==> t.rows[j] == s.rows[j]
    ensures s.deleted <= t.deleted
    ensures forall j :: j in t.deleted ==> j in s.deleted || j < n
    ensures s.failure.Some? ==> t == s
    ensures s.failure.None? && t.failure.Some? ==> t.failure.value.index < n
    decreases n
  {
    if n == 0 then s else Step(env, Run(env, s, n - 1), n - 1)
  }

  /** Once the pass has failed, visiting further positions changes nothing. */
  lemma {:induction false} RunStopsAtFailure(env: Env, s: State, m: nat, n: nat)
    requires m <= n <= |s.rows|
    requires Run(env, s, m).failure.Some?
    ensures Run(env, s, n) == Run(env, s, m)
    decreases n
  {
    if n > m {
      RunStopsAtFailure(env, s, m, n - 1);
    }
  }

  /** Position `i` after the pass visited it without failing: a row deleted
      beforehand stays deleted and untouched; otherwise the row is deleted
      untouched or replaced by the row it was saved with. */
  ghost predicate Visited(env: Env, s0: State, s: State, i: nat)
    requires i < |s0.rows| == |s.rows|
  {
    if i in s0.deleted then i in s.deleted && s.rows[i] == s0.rows[i]
    else match MigrateTag(env, s0.rows[i])
      case Deleted => i in s.deleted && s.rows[i] == s0.rows[i]
      case Saved(r) => i !in s.deleted && s.rows[i] == r
      case _ => false
  }

  /** Position `i` not yet visited. */
  ghost predicate Untouched(s0: State, s: State, i: nat)
    requires i < |s0.rows| == |s.rows|
  {
    (i in s.deleted <==> i in s0.deleted) && s.rows[i] == s0.rows[i]
  }

  /** What a pass over the first `n` positions has done, when it did not fail:
      every visited position is as `MigrateTag` says, every other is untouched. */
  lemma {:induction false} RunProgress(env: Env, s0: State, n: nat)
    requires n <= |s0.rows|
    requires s0.failure.None?
    requires Run(env, s0, n).failure.None?
    ensures forall i :: 0 <= i < n ==> Visited(env, s0, Run(env, s0, n), i)
    ensures forall i :: n <= i < |s0.rows| ==> Untouched(s0, Run(env, s0, n), i)
    decreases n
  {
    if n > 0 {
      var prev := Run(env, s0, n - 1);
      assert prev.failure.None?;
      RunProgress(env, s0, n - 1);
      var s := Run(env, s0, n);
      assert s == Step(env, prev, n - 1);
      forall i | 0 <= i < n
        ensures Visited(env, s0, s, i)
      {
        if i < n - 1 {
          assert Visited(env, s0, prev, i);
        } else {
          assert Untouched(s0, prev, i);
        }
      }
    }
  }

  /** The guarantee of a complete pass that did not fail, per tag present in the
      table at the start: it is deleted exactly when its name and slug were both
      empty; otherwise it survives with non-empty name and slug, an ABID derived
      by `calculate_abid` from its fixed sources, `id` equal to that ABID's
      uuid, a parse of the ABID giving the same uuid, and every other column as
      it was. */
  lemma MigrationGuarantees(env: Env, s0: State, i: nat)
    requires s0.failure.None?
    requires Run(env, s0, |s0.rows|).failure.None?
    requires i < |s0.rows| && i !in s0.deleted
    ensures var s := Run(env, s0, |s0.rows|);
      (i in s.deleted <==> s0.rows[i].name == "" && s0.rows[i].slug == "")
      && (i in s.deleted ==> s.rows[i] == s0.rows[i])
      && (i !in s.deleted ==>
            s.rows[i].name != "" && s.rows[i].slug != ""
            && (s.rows[i].name, s.rows[i].slug) == RepairNames(s0.rows[i].name, s0.rows[i].slug)
            && s.rows[i].abid.Some?
            && CalculateAbid(env.encode, TagSources(s.rows[i]), TagRecord(env, s0.rows[i]))
               == Ok(s.rows[i].abid.value)
            && s.rows[i].id == Text(s.rows[i].abid.value.uuid)
            && UuidRoundTrips(env, s.rows[i].abid.value, s.rows[i].id)
            && s.rows[i].pk == s0.rows[i].pk && s.rows[i].oldId == s0.rows[i].oldId
            && s.rows[i].uuid == s0.rows[i].uuid && s.rows[i].created == s0.rows[i].created)
  {
    RunProgress(env, s0, |s0.rows|);
    var s := Run(env, s0, |s0.rows|);
    assert Visited(env, s0, s, i);
  }

  /** With a sound codec the pass never fails. */
  lemma {:induction false} RunNeverFails(env: Env, s0: State, n: nat)
    requires SoundCodec(env)
    requires s0.failure.None?
    requires n <= |s0.rows|
    ensures Run(env, s0, n).failure.None?
    decreases n
  {
    if n > 0 {
      RunNeverFails(env, s0, n - 1);
      var prev := Run(env, s0, n - 1);
      if n - 1 !in prev.deleted {
        MigrateTagNeverFails(env, prev.rows[n - 1]);
      }
    }
  }

  /** Idempotence: running the pass again over the table a successful pass left
      behind changes nothing, provided every tag it saved (every tag present
      with a name or a slug) had a truthy `old_id` or `uuid`. */
  lemma RerunIsNoOp(env: Env, s0: State)
    requires s0.failure.None?
    requires Run(env, s0, |s0.rows|).failure.None?
    requires forall i ::
               (0 <= i < |s0.rows| && i !in s0.deleted && (s0.rows[i].name != "" || s0.rows[i].slug != ""))
               ==> Truthy(s0.rows[i].oldId) || Truthy(s0.rows[i].uuid)
    ensures Run(env, Run(env, s0, |s0.rows|), |s0.rows|) == Run(env, s0, |s0.rows|)
  {
    var s := Run(env, s0, |s0.rows|);
    RunProgress(env, s0, |s0.rows|);
    forall i | 0 <= i < |s.rows|
      ensures Step(env, s, i) == s
    {
      assert Visited(env, s0, s, i);
      if i !in s.deleted {
        MigrateTagIdempotent(env, s0.rows[i]);
        assert s.rows[i := s.rows[i]] == s.rows;
      }
    }
    RunFixedPoint(env, s, |s.rows|);
  }

  /** A state that no single step changes is left alone by the whole pass. */
  lemma {:induction false} RunFixedPoint(env: Env, s: State, n: nat)
    requires n <= |s.rows|
    requires forall i :: 0 <= i < |s.rows| ==> Step(env, s, i) == s
    ensures Run(env, s, n) == s
    decreases n
  {
    if n > 0 {
      RunFixedPoint(env, s, n - 1);
    }
  }

  // ---------------------------------------------------------------------------
  // The imperative pass
  // ---------------------------------------------------------------------------

  /** A Tag model instance as the query yields it; the loop body updates its
      fields in place before saving some of them. */
  class Tag {
    var pk: Value
    var oldId: Value
    var uuid: Value
    var id: Value
    var created: Option<int>
    var name: string
    var slug: string
    var abid: Option<Abid>
    var abidPrefix: string

    /** The instance for one table row; its ABID prefix is not yet set. */
    constructor Load(row: TagRow)
      ensures Row() == row && abidPrefix == ""
    {
      pk, oldId, uuid, id := row.pk, row.oldId, row.uuid, row.id;
      created, name, slug, abid := row.created, row.name, row.slug, row.abid;
      abidPrefix := "";
    }

    /** The instance's column values. */
    function Row(): TagRow
      reads this
    {
      TagRow(pk, oldId, uuid, id, created, name, slug, abid)
    }

    /** What the fixed accessors `self.created`, `self.slug`, `"03"` and
        `self.old_id` read, with the instance's current prefix. */
    function AbidSources(): Sources
      reads this
    {
      Sources(abidPrefix, created, slug, TagSubtype, oldId)
    }

    /** What `calculate_abid` reads from the instance for its placeholders. */
    function AbidRecord(display: Value -> string): Record
      reads this
    {
      Record(display(pk), TagClassName, uuid, id, pk)
    }
  }

  /** The Tag table: rows in iteration order and the positions deleted. */
  class TagTable {
    var rows: seq<TagRow>
    var deleted: set<nat>

    constructor (rows: seq<TagRow>)
      ensures this.rows == rows && deleted == {}
    {
      this.rows := rows;
      deleted := {};
    }

    /** `tag.delete()`. */
    method Delete(i: nat)
      requires i < |rows|
      modifies this
      ensures rows == old(rows) && deleted == old(deleted) + {i}
    {
      deleted := deleted + {i};
    }

    /** `tag.save(update_fields=["abid", "id", "name", "slug"])`: only those
        four columns of row `i` are written. */
    method Save(i: nat, tag: Tag)
      requires i < |rows|
      modifies this
      ensures deleted == old(deleted)
      ensures rows == old(rows)[i := old(rows)[i].(abid := tag.abid, id := tag.id, name := tag.name, slug := tag.slug)]
    {
      rows := rows[i := rows[i].(abid := tag.abid, id := tag.id, name := tag.name, slug := tag.slug)];
    }

    /** The table viewed as the specification's state. */
    function View(failure: Option<Failure>): State
      reads this
    {
      State(rows, deleted, failure)
    }
  }

  /** `update_archiveresult_ids`: visit every tag in table order, skip the
      rows the query no longer yields, and run the loop body on each other one.
      The first failure stops the pass; what was saved before it stays saved. */
  method UpdateTagIds(table: TagTable, env: Env) returns (failure: Option<Failure>)
    modifies table
    ensures table.View(failure) == Run(env, old(table.View(None)), |old(table.rows)|)
  {
    ghost var s0 := table.View(None);
    failure := None;
    var i := 0;
    while i < |table.rows|
      invariant i <= |table.rows| == |s0.rows|
      invariant failure.None? && table.View(None) == Run(env, s0, i)
    {
      if i !in table.deleted {
        failure := UpdateTag(table, env, i);
        if failure.Some? {
          RunStopsAtFailure(env, s0, i + 1, |s0.rows|);
          return;
        }
      }
      i := i + 1;
    }
  }

  /** The loop body for the tag at position `i`: repair its name and slug,
      delete it when both are empty, otherwise derive its ABID, install the
      ABID's uuid as its id, save, and check the round trip. */
  method UpdateTag(table: TagTable, env: Env, i: nat) returns (failure: Option<Failure>)
    requires i < |table.rows| && i !in table.deleted
    modifies table
    ensures table.View(failure) == Step(env, old(table.View(None)), i)
  {
    var tag := new Tag.Load(table.rows[i]);
    ghost var row := tag.Row();
    if tag.slug == "" {
      tag.slug := SlugFromName(tag.name);
    }
    if tag.name == "" {
      tag.name := tag.slug;
    }
    assert (tag.name, tag.slug) == RepairNames(row.name, row.slug);
    if tag.name == "" && tag.slug == "" {
      table.Delete(i);
      return None;
    }
    assert tag.slug != "" && tag.name != "";
    tag.abidPrefix := TagPrefix;
    ghost var repaired := tag.Row();
    assert tag.AbidSources() == TagSources(repaired);
    assert tag.AbidRecord(env.display) == TagRecord(env, repaired);
    var derived := CalculateAbid(env.encode, tag.AbidSources(), tag.AbidRecord(env.display));
    if derived.Err? {
      return Some(Failure(i, Derivation(derived.error)));
    }
    tag.abid := Some(derived.value);
    tag.id := Text(derived.value.uuid);
    table.Save(i, tag);
    assert table.rows[i] == repaired.(abid := Some(derived.value), id := Text(derived.value.uuid));
    var parsed := env.parse(derived.value);
    if !(parsed.Some? && Text(parsed.value.uuid) == tag.id) {
      return Some(Failure(i, RoundTripFailed(tag.id)));
    }
    return None;
  }
}
