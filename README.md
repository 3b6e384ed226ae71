# ABID backfill for Tags

This project models the data migration `archivebox/core/migrations/0059_tag_id.py`. The migration gives every existing Tag an ABID, a compound identifier derived from a type prefix, a timestamp, a URI, a subtype and a random part. It then installs the ABID's UUID form as the tag's new `id`. The model has two parts.

- `calculate_abid` (module `AbidDerivation`, file `calculate_abid.dfy`). This is a pure function. The ABID encoder `abid_from_values` is an argument of it.
  - It rejects a missing or sentinel (`obj_`) prefix.
  - It replaces each falsy source value by its placeholder: epoch 0 for the timestamp, `str(self)` for the URI, the class name for the subtype, and the first truthy of `uuid`, `id`, `pk` for rand.
  - It encodes the result and checks that the ulid, uuid and typeid forms are all present.
  - `Warnings` lists the placeholder warnings the function prints, in the order it prints them. It is empty when the prefix is rejected, because the exception comes before any warning.
- `update_archiveresult_ids` (module `TagMigration`, file `tag_migration.dfy`). This is imperative.
  - `TagTable` is a class that holds the Tag rows in iteration order and the set of deleted positions. Its `Delete` and `Save` methods model `tag.delete()` and `tag.save(update_fields=[...])`.
  - `Tag` is a class for the model instance the query yields. The loop body changes its fields in place.
  - `UpdateTagIds` is the loop, and `UpdateTag` is its body. Both are proved equal to the specification functions `Run` and `Step`, which are built from `MigrateTag`, the effect on one tag.
  - The outcome of one tag is `Deleted`, `Saved`, `FailedBeforeSave` or `FailedAfterSave`.
  - Lemmas about `MigrateTag` and `Run` state what the pass guarantees: which tags are deleted, what a surviving tag holds afterwards, that nothing fails when the codec is sound, and when a rerun changes nothing.

The module `Values` (file `values.dfy`) holds Python's truthiness on `None`, integers and text, plus ASCII `str.lower()` and single-character `str.replace`.

How the parts that are not defined here are handled:

- The encoder `abid_from_values`, the parser `ABID.parse` and `str(tag)` are function values in `Env`. Any deterministic total function can be supplied.
- The two assertions of the source are modelled as error results, not assumed:
  - the check that the ulid, uuid and typeid forms are all present (line 45);
  - the check that parsing the stored ABID gives back the tag's `id` (line 71).
- `SoundCodec` states what these assertions expect of the codec. `MigrateTagNeverFails` and `RunNeverFails` prove that, under it, the pass never fails.
- The `eval` of the `abid_*_src` strings is replaced by the fixed accessors the migration installs: `created`, `slug`, the constant `"03"` and `old_id`.
- A timestamp is `Option<int>`, seconds since the epoch. A datetime is always truthy and `None` is falsy.

Two behaviours of the migration worth knowing:

- **A rerun is guaranteed to change nothing when each saved tag has a rand source of its own.** `RerunIsNoOp` and `MigrateTagIdempotent` prove that rerunning the pass leaves the table unchanged when every saved tag has a truthy `old_id` or a truthy `uuid` attribute. The converse is not claimed: with an encoder that ignores rand, a rerun changes nothing anyway. Without such a value, the rand fallback reads `tag.id`, which the first pass has just set, so a second pass can derive a different ABID. `RerunChangesIdWithoutOldId` exhibits a concrete case with a falsy `old_id`. Whether the schema admits a falsy `old_id` is not visible in the migration: it depends on `0058_alter_tag_old_id`, which suggests `old_id` may be the auto-increment primary key.
- **Colliding identifiers are not detected.** The code has no check for two tags that derive the same identifier. The new `id` column is nullable and not unique in this migration.

## Model

| member | source | states |
|---|---|---|
| `AbidDerivation.CalculateAbid` | archivebox/core/migrations/0059_tag_id.py:8-46 | fails with a missing-prefix error exactly when the prefix is empty or `obj_`; otherwise fails with an incomplete-ABID error exactly when the encoded ABID lacks a ulid, uuid or typeid; on success returns the encoder's ABID for the resolved inputs, with all three forms present |
| `AbidDerivation.PrefixRejected` | archivebox/core/migrations/0059_tag_id.py:18-20 | an empty or sentinel prefix raises and produces no ABID, whatever the other inputs are |
| `AbidDerivation.Resolve` | archivebox/core/migrations/0059_tag_id.py:22-36 | the prefix and every truthy source value reach the encoder unchanged; a missing timestamp becomes epoch 0, an empty uri `str(self)`, an empty subtype the class name, a falsy rand the rand placeholder |
| `AbidDerivation.RandPlaceholder` | archivebox/core/migrations/0059_tag_id.py:35 | the rand placeholder is `uuid` if truthy, else `id` if truthy, else `pk` (even a falsy one); it is truthy exactly when one of the three is |
| `AbidDerivation.Warnings` | archivebox/core/migrations/0059_tag_id.py:18-36 | no warning when the prefix is rejected; otherwise one warning per falsy source value and none for a truthy one, in the order timestamp, uri, subtype, rand |
| `AbidDerivation.FallbackPolicy` | archivebox/core/migrations/0059_tag_id.py:22-36 | with an accepted prefix, an unwarned role reaches the encoder unchanged and a warned one as its placeholder (epoch 0, `str(self)`, the class name, the rand placeholder) |
| `AbidDerivation.TruthySourcesPassThrough` | archivebox/core/migrations/0059_tag_id.py:38-44 | with all source values truthy nothing is printed and the encoder receives exactly the source values |
| `AbidDerivation.OnlyResolvedInputsMatter` | archivebox/core/migrations/0059_tag_id.py:38-46 | sources that resolve to the same inputs give the same result (determinism in terms of the encoder's arguments) |
| `Values.Lower` | archivebox/core/migrations/0059_tag_id.py:55 | `lower()` keeps the length and lowers each ASCII letter position by position |
| `Values.ReplaceChar` | archivebox/core/migrations/0059_tag_id.py:55 | `replace(' ', '_')` keeps the length and replaces exactly the matching positions |
| `TagMigration.SlugFromName` | archivebox/core/migrations/0059_tag_id.py:55 | the derived slug has the name's length; each space becomes `_` and each other character is ASCII-lowered |
| `TagMigration.SlugFromNameShape` | archivebox/core/migrations/0059_tag_id.py:54-55 | a slug derived from a name has no spaces and no upper-case ASCII letters, and is empty only for an empty name |
| `TagMigration.RepairNames` | archivebox/core/migrations/0059_tag_id.py:54-57 | non-empty fields are kept; an empty slug becomes the slug derived from the name and an empty name becomes the repaired slug; both end non-empty exactly when one was non-empty, both empty exactly when both were |
| `TagMigration.MigrateTag` | archivebox/core/migrations/0059_tag_id.py:54-71 | a tag is deleted exactly when name and slug were both empty; a saved tag has non-empty repaired name and slug, the ABID `calculate_abid` derives from `tag_`, `created`, the slug, `"03"` and `old_id`, `id` equal to its uuid, and every other column unchanged; it fails after the save exactly when the parse round trip fails, and before it exactly when `calculate_abid` raises |
| `TagMigration.MigrateTagNeverFails` | archivebox/core/migrations/0059_tag_id.py:68-71 | with a sound codec no tag fails: the `tag_` prefix is accepted and both assertions hold |
| `TagMigration.MigrateTagIdempotent` | archivebox/core/migrations/0059_tag_id.py:63-69 | migrating a saved tag again saves the same row when its `old_id` or `uuid` is truthy |
| `TagMigration.RerunChangesIdWithoutOldId` | archivebox/core/migrations/0059_tag_id.py:34-36 | a concrete tag with a falsy `old_id` and no `uuid` gets a different `id` on a second pass, since the fallback then reads the `id` of the first pass |
| `TagMigration.Step` | archivebox/core/migrations/0059_tag_id.py:53-71 | visiting one position: a deleted row or a failed pass is left as it is; only that row can be written, only that position deleted, and a new failure is reported there |
| `TagMigration.Run` | archivebox/core/migrations/0059_tag_id.py:53-71 | after the first n positions: later rows untouched, deletions only grow and lie before n, a failed state is unchanged, a failure lies at a visited position |
| `TagMigration.RunStopsAtFailure` | archivebox/core/migrations/0059_tag_id.py:53-71 | once a tag has failed, visiting further positions changes nothing |
| `TagMigration.RunProgress` | archivebox/core/migrations/0059_tag_id.py:53-71 | after a failure-free visit of the first n positions each visited row is deleted or saved as `MigrateTag` says (rows deleted beforehand untouched) and every later row is untouched |
| `TagMigration.MigrationGuarantees` | archivebox/core/migrations/0059_tag_id.py:53-71 | after a complete pass each tag is deleted exactly when name and slug were both empty; each survivor has non-empty name and slug, its derived ABID, `id == abid.uuid`, a parse that agrees, and its other columns unchanged |
| `TagMigration.RunNeverFails` | archivebox/core/migrations/0059_tag_id.py:53-71 | with a sound codec the pass over any table never fails |
| `TagMigration.RerunIsNoOp` | archivebox/core/migrations/0059_tag_id.py:53-71 | a second pass over the table a successful pass left behind changes nothing, when every tag it saved had a truthy `old_id` or `uuid` |
| `TagMigration.Tag.Load` | archivebox/core/migrations/0059_tag_id.py:53 | the instance the query yields holds the row's column values and no prefix yet |
| `TagMigration.TagTable.Delete` | archivebox/core/migrations/0059_tag_id.py:59 | marks the position deleted and changes no row |
| `TagMigration.TagTable.Save` | archivebox/core/migrations/0059_tag_id.py:70 | writes only `abid`, `id`, `name` and `slug` of that row from the instance; nothing else changes |
| `TagMigration.UpdateTag` | archivebox/core/migrations/0059_tag_id.py:54-71 | the loop body leaves the table exactly as `Step` specifies for that position and reports its failure, if any |
| `TagMigration.UpdateTagIds` | archivebox/core/migrations/0059_tag_id.py:49-73 | the loop leaves the table and failure exactly as `Run` over all positions specifies |

## Left out

- The encoding inside `abid_from_values` and `ABID.parse` (ULID layout, sort order, text/binary round trips). They are imported from `archivebox/base_models`, which is not part of this model.
- `eval` of arbitrary source-field expressions. It is replaced by the fixed accessors the migration installs on tags.
- The wording of the missing-prefix exception and its suggested prefix. The error carries only the class name.
- The warning and progress output. The placeholder warnings are modelled as the value `Warnings`, but not as output.
- Unicode case mapping beyond ASCII in `str.lower()`.
- Django ORM mechanics:
  - chunked iteration;
  - the `AddField` schema operation;
  - `reverse_code=noop`.
- A `None` name. Name and slug are modelled as text, so the `AttributeError` that `None.lower()` would raise is not represented.
- The migration's transaction. `class Migration` does not set `atomic = False`, so on databases with transactional schema changes a failure rolls back every earlier save and delete. The model instead keeps the rows written before the failure: `Run` and `UpdateTagIds` describe the writes the pass issues, not what a rollback leaves behind.
- A migration report counting processed, deleted and defaulted records. The model's `State` records which rows were deleted and the first failure, but it counts nothing.
- The detection of colliding identifiers. The code does not do it.
- `archivebox/plugins_sys/config/apps.py`: configuration plumbing that reads ambient process state and prints warnings; no part of the backfill.
