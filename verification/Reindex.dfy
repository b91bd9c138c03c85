/** The incremental re-index of cmd/kb-reindex/main.go over the vector table of pkg/kb/vector.go. The SQL table is a
    map from section id to row; SHA-256 and the embedding model are functions, and every call outside may fail. */
module Reindex {
  import opened Options

  type Vector = seq<real>

  datatype Section = Section(id: string, title: string, content: string, path: string)

  datatype Row = Row(title: string, content: string, path: string, embedding: Vector, hash: string)

  /** The world outside: the hash, and what fails when. Positions count the sections of the run. */
  datatype Env = Env(
    hash: string -> string,
    embed: (nat, string) -> Option<Vector>,
    readOk: nat -> bool,
    upsertOk: nat -> bool,
    queryOk: bool,
    deleteOk: string -> bool)

  function EmbeddedText(sec: Section): string { sec.title + "\n" + sec.content }

  function FreshRow(env: Env, sec: Section, embedding: Vector): Row {
    Row(sec.title, sec.content, sec.path, embedding, env.hash(sec.content))
  }

  function StoredHash(rows: map<string, Row>, id: string): string {
    if id in rows then rows[id].hash else ""
  }

  // ------------------------------------------------------------------ the pass over the sections

  datatype Progress = Progress(rows: map<string, Row>, embedded: nat, skipped: nat)

  function ProcessOne(env: Env, p: Progress, sec: Section, i: nat): Progress {
    var existing := if env.readOk(i) then StoredHash(p.rows, sec.id) else "";
    if existing == env.hash(sec.content) then p.(skipped := p.skipped + 1)
    else
      match env.embed(i, EmbeddedText(sec))
      case None => p
      case Some(v) =>
        if !env.upsertOk(i) then p
        else p.(rows := p.rows[sec.id := FreshRow(env, sec, v)], embedded := p.embedded + 1)
  }

  function Pass(env: Env, rows: map<string, Row>, secs: seq<Section>): Progress {
    if secs == [] then Progress(rows, 0, 0)
    else
      var n := |secs| - 1;
      ProcessOne(env, Pass(env, rows, secs[..n]), secs[n], n)
  }

  function Ids(secs: seq<Section>): set<string> { set i | 0 <= i < |secs| :: secs[i].id }

  function Keep(rows: map<string, Row>, ids: set<string>): map<string, Row> {
    map id | id in rows && id in ids :: rows[id]
  }

  /** A run whose deletions succeed. */
  function Run(env: Env, rows: map<string, Row>, secs: seq<Section>): map<string, Row> {
    Keep(Pass(env, rows, secs).rows, Ids(secs))
  }

  /** What a run may leave, however far its deletions get: the rows of the listed ids, and of the others some of those
      that were there. */
  predicate LeftBy(env: Env, rows: map<string, Row>, secs: seq<Section>, after: map<string, Row>) {
    && Keep(after, Ids(secs)) == Run(env, rows, secs)
    && forall id <- after | id !in Ids(secs) :: id in rows && after[id] == rows[id]
  }

  class VectorIndex {
    var rows: map<string, Row>

    constructor (rows: map<string, Row>)
      ensures this.rows == rows
    {
      this.rows := rows;
    }

    method UpsertSection(id: string, row: Row, fails: bool) returns (ok: bool)
      modifies this
      ensures ok == !fails && rows == if ok then old(rows)[id := row] else old(rows)
    {
      if fails {
        return false;
      }
      rows := rows[id := row];
      return true;
    }

    method ContentHashForSection(id: string, readOk: bool) returns (hash: string)
      ensures hash == if readOk then StoredHash(rows, id) else ""
    {
      hash := "";
      if readOk && id in rows {
        hash := rows[id].hash;
      }
    }

    /** Deletes the stale rows, in whatever order the table lists them, up to the first failure. */
    method DeleteStale(currentIDs: set<string>, queryOk: bool, deleteOk: string -> bool)
      returns (deleted: nat, ok: bool)
      modifies this
      ensures Keep(rows, currentIDs) == Keep(old(rows), currentIDs)
      ensures forall id <- rows :: id in old(rows) && rows[id] == old(rows)[id]
      ensures ok <==> queryOk && forall id <- old(rows) | id !in currentIDs :: deleteOk(id)
      ensures ok ==> rows == Keep(old(rows), currentIDs) && deleted == |old(rows).Keys - currentIDs|
      ensures !ok ==> deleted == 0
    {
      deleted := 0;
      if !queryOk {
        return 0, false;
      }
      var toDelete := Stale(rows.Keys, currentIDs);
      var all := DeleteEach(toDelete, deleteOk);
      if !all {
        return 0, false;
      }
      return |toDelete|, true;
    }

    method DeleteEach(ids: seq<string>, deleteOk: string -> bool) returns (ok: bool)
      modifies this
      ensures ok <==> forall i | 0 <= i < |ids| :: deleteOk(ids[i])
      ensures forall id :: id in rows ==> id in old(rows) && rows[id] == old(rows)[id]
      ensures forall id <- old(rows) | id !in ids :: id in rows
      ensures ok ==> forall id <- ids :: id !in rows
    {
      for i := 0 to |ids|
        invariant forall j | 0 <= j < i :: deleteOk(ids[j]) && ids[j] !in rows
        invariant forall id :: id in rows ==> id in old(rows) && rows[id] == old(rows)[id]
        invariant forall id <- old(rows) | id !in ids :: id in rows
      {
        if !deleteOk(ids[i]) {
          return false;
        }
        rows := rows - {ids[i]};
      }
      return true;
    }

    /** The loop of the command, followed by the deletion of stale rows. */
    method Reindex(env: Env, secs: seq<Section>) returns (embedded: nat, skipped: nat, deleted: nat, ok: bool)
      modifies this
      ensures LeftBy(env, old(rows), secs, rows)
      ensures ok ==> rows == Run(env, old(rows), secs)
      ensures ok <==> env.queryOk && forall id <- Pass(env, old(rows), secs).rows | id !in Ids(secs) :: env.deleteOk(id)
      ensures embedded == Pass(env, old(rows), secs).embedded && skipped == Pass(env, old(rows), secs).skipped
    {
      var currentIDs: set<string> := {};
      embedded, skipped := 0, 0;
      for i := 0 to |secs|
        invariant currentIDs == Ids(secs[..i])
        invariant Progress(rows, embedded, skipped) == Pass(env, old(rows), secs[..i])
      {
        assert secs[..i + 1][..i] == secs[..i];
        assert Ids(secs[..i + 1]) == Ids(secs[..i]) + {secs[i].id} by { IdsSnoc(secs, i); }
        var sec := secs[i];
        currentIDs := currentIDs + {sec.id};
        var existing := ContentHashForSection(sec.id, env.readOk(i));
        if existing == env.hash(sec.content) {
          skipped := skipped + 1;
          continue;
        }
        var emb := env.embed(i, EmbeddedText(sec));
        if emb.None? {
          continue;
        }
        var stored := UpsertSection(sec.id, FreshRow(env, sec, emb.value), !env.upsertOk(i));
        if !stored {
          continue;
        }
        embedded := embedded + 1;
      }
      assert secs[..|secs|] == secs;
      ghost var all := rows;
      UnlistedRowsStay(env, old(rows), secs);
      deleted, ok := DeleteStale(currentIDs, env.queryOk, env.deleteOk);
      assert forall id <- rows :: id in all && rows[id] == all[id];
    }
  }

  lemma IdsSnoc(secs: seq<Section>, i: nat)
    requires i < |secs|
    ensures Ids(secs[..i + 1]) == Ids(secs[..i]) + {secs[i].id}
  {
    forall id | id in Ids(secs[..i]) ensures id in Ids(secs[..i + 1]) {
      var j :| 0 <= j < i && secs[..i][j].id == id;
      assert secs[..i + 1][j].id == id;
    }
    assert secs[..i + 1][i].id == secs[i].id;
    forall id | id in Ids(secs[..i + 1]) ensures id in Ids(secs[..i]) + {secs[i].id} {
      var j :| 0 <= j < i + 1 && secs[..i + 1][j].id == id;
      if j < i { assert secs[..i][j].id == id; }
    }
  }

  /** The keys that are not current, each once, in some order. */
  method Stale(keys: set<string>, currentIDs: set<string>) returns (ids: seq<string>)
    ensures forall id :: id in ids <==> id in keys && id !in currentIDs
    ensures |ids| == |keys - currentIDs|
  {
    ids := [];
    var rest := keys;
    while rest != {}
      invariant rest <= keys
      invariant forall id :: id in ids <==> id in keys && id !in rest && id !in currentIDs
      invariant Distinct(ids)
    {
      var id :| id in rest;
      rest := rest - {id};
      if id !in currentIDs {
        ids := ids + [id];
      }
    }
    DistinctCount(ids, keys - currentIDs);
  }

  predicate Distinct(ids: seq<string>) { forall i, j | 0 <= i < j < |ids| :: ids[i] != ids[j] }

  lemma {:induction false} DistinctCount(ids: seq<string>, s: set<string>)
    requires Distinct(ids) && forall id :: id in ids <==> id in s
    ensures |ids| == |s|
  {
    if ids != [] {
      var n := |ids| - 1;
      assert ids[n] in s;
      forall id ensures id in ids[..n] <==> id in s - {ids[n]} {
        if id in s - {ids[n]} {
          assert id in ids;
        }
      }
      DistinctCount(ids[..n], s - {ids[n]});
    } else {
      assert s == {};
    }
  }

  // ------------------------------------------------------------------ one id at a time

  /** What a run does to the row of one id. */
  function RowAfter(env: Env, row: Option<Row>, secs: seq<Section>, id: string): Option<Row> {
    if secs == [] then row
    else
      var n := |secs| - 1;
      var r := RowAfter(env, row, secs[..n], id);
      if secs[n].id != id then r
      else
        var p := ProcessOne(env, Progress(if r.Some? then map[id := r.value] else map[], 0, 0), secs[n], n);
        Lookup(p.rows, id)
  }

  function Lookup(rows: map<string, Row>, id: string): Option<Row> {
    if id in rows then Some(rows[id]) else None
  }

  lemma {:induction false} PassIsPerId(env: Env, rows: map<string, Row>, secs: seq<Section>, id: string)
    ensures Lookup(Pass(env, rows, secs).rows, id) == RowAfter(env, Lookup(rows, id), secs, id)
  {
    if secs == [] {
    } else {
      PassIsPerId(env, rows, secs[..|secs| - 1], id);
    }
  }

  ghost predicate GoodHash(hash: string -> string) {
    (forall a, b | hash(a) == hash(b) :: a == b) && (forall a :: hash(a) != "")
  }

  ghost predicate NothingFails(env: Env) {
    && env.queryOk
    && (forall i: nat :: env.readOk(i) && env.upsertOk(i))
    && (forall i: nat, text {:trigger env.embed(i, text)} :: env.embed(i, text).Some?)
    && (forall id :: env.deleteOk(id))
  }

  predicate RowConsistent(env: Env, row: Option<Row>) {
    row.Some? ==> row.value.hash == env.hash(row.value.content)
  }

  predicate Consistent(env: Env, rows: map<string, Row>) {
    forall id <- rows :: rows[id].hash == env.hash(rows[id].content)
  }

  lemma {:induction false} RowStaysConsistent(env: Env, row: Option<Row>, secs: seq<Section>, id: string)
    requires RowConsistent(env, row)
    ensures RowConsistent(env, RowAfter(env, row, secs, id))
  {
    if secs == [] {
    } else {
      RowStaysConsistent(env, row, secs[..|secs| - 1], id);
    }
  }

  lemma {:induction false} RowOfUnlisted(env: Env, row: Option<Row>, secs: seq<Section>, id: string)
    requires id !in Ids(secs)
    ensures RowAfter(env, row, secs, id) == row
  {
    if secs == [] {
    } else {
      var n := |secs| - 1;
      assert secs[n].id in Ids(secs);
      IdsSnoc(secs, n);
      assert secs[..n + 1] == secs;
      RowOfUnlisted(env, row, secs[..n], id);
    }
  }

  lemma UnlistedRowsStay(env: Env, rows: map<string, Row>, secs: seq<Section>)
    ensures var after := Pass(env, rows, secs).rows;
            forall id | id !in Ids(secs) :: Lookup(after, id) == Lookup(rows, id)
  {
    forall id | id !in Ids(secs) ensures Lookup(Pass(env, rows, secs).rows, id) == Lookup(rows, id) {
      PassIsPerId(env, rows, secs, id);
      RowOfUnlisted(env, Lookup(rows, id), secs, id);
    }
  }

  /** Whatever fails, deletions included, stored hashes keep matching stored contents, and a row that is not listed is
      an old one, unchanged; after successful deletions none is left. */
  lemma RunKeepsTheTableSound(env: Env, rows: map<string, Row>, secs: seq<Section>, after: map<string, Row>)
    requires Consistent(env, rows) && LeftBy(env, rows, secs, after)
    ensures Consistent(env, after)
    ensures forall id <- after :: id in Ids(secs) || (id in rows && after[id] == rows[id])
    ensures LeftBy(env, rows, secs, Run(env, rows, secs)) && Run(env, rows, secs).Keys <= Ids(secs)
  {
    forall id | id in after && id in Ids(secs) ensures after[id].hash == env.hash(after[id].content) {
      assert after[id] == Keep(after, Ids(secs))[id];
      PassIsPerId(env, rows, secs, id);
      RowStaysConsistent(env, Lookup(rows, id), secs, id);
    }
    assert Keep(Run(env, rows, secs), Ids(secs)) == Run(env, rows, secs);
  }

  /** The last section listed under an id. */
  function LastListed(secs: seq<Section>, id: string): (s: Section)
    requires id in Ids(secs)
    ensures s in secs && s.id == id
  {
    var n := |secs| - 1;
    if secs[n].id == id then secs[n]
    else
      IdsSnoc(secs, n);
      assert secs[..n + 1] == secs;
      LastListed(secs[..n], id)
  }

  /** Every listing of the id can be embedded and stored. Reads and all other listings may fail. */
  predicate ListingsSucceed(env: Env, secs: seq<Section>, id: string) {
    forall i | 0 <= i < |secs| && secs[i].id == id :: env.embed(i, EmbeddedText(secs[i])).Some? && env.upsertOk(i)
  }

  lemma {:induction false} RowIsLastListed(env: Env, row: Option<Row>, secs: seq<Section>, id: string)
    requires GoodHash(env.hash) && ListingsSucceed(env, secs, id) && RowConsistent(env, row) && id in Ids(secs)
    ensures var r := RowAfter(env, row, secs, id);
            r.Some? && r.value.content == LastListed(secs, id).content && r.value.hash == env.hash(r.value.content)
  {
    var n := |secs| - 1;
    RowStaysConsistent(env, row, secs[..n], id);
    if secs[n].id != id {
      IdsSnoc(secs, n);
      assert secs[..n + 1] == secs;
      assert ListingsSucceed(env, secs[..n], id);
      RowIsLastListed(env, row, secs[..n], id);
    }
  }

  /** An id whose own listings can be embedded and stored ends with the content listed last and its hash, whatever else
      fails: the same as rebuilding from an empty table, whatever consistent table the run starts from. */
  lemma ReindexIsRebuild(env: Env, rows: map<string, Row>, secs: seq<Section>)
    requires GoodHash(env.hash) && Consistent(env, rows)
    ensures Run(env, rows, secs).Keys <= Ids(secs) && Run(env, map[], secs).Keys <= Ids(secs)
    ensures forall id <- Ids(secs) | ListingsSucceed(env, secs, id) ::
              && id in Run(env, rows, secs) && id in Run(env, map[], secs)
              && Run(env, rows, secs)[id].content == Run(env, map[], secs)[id].content == LastListed(secs, id).content
              && Run(env, rows, secs)[id].hash == Run(env, map[], secs)[id].hash
                 == env.hash(LastListed(secs, id).content)
    ensures (forall id <- Ids(secs) :: ListingsSucceed(env, secs, id)) ==>
              Run(env, rows, secs).Keys == Run(env, map[], secs).Keys == Ids(secs)
  {
    forall id | id in Ids(secs) && ListingsSucceed(env, secs, id)
      ensures id in Run(env, rows, secs) && id in Run(env, map[], secs)
      ensures Run(env, rows, secs)[id].content == Run(env, map[], secs)[id].content == LastListed(secs, id).content
      ensures Run(env, rows, secs)[id].hash == Run(env, map[], secs)[id].hash == env.hash(LastListed(secs, id).content)
    {
      PassIsPerId(env, rows, secs, id);
      PassIsPerId(env, map[], secs, id);
      RowIsLastListed(env, Lookup(rows, id), secs, id);
      RowIsLastListed(env, None, secs, id);
    }
  }

  lemma NothingFailsSucceeds(env: Env, secs: seq<Section>)
    requires NothingFails(env)
    ensures forall id <- Ids(secs) :: ListingsSucceed(env, secs, id)
  {
    forall i | 0 <= i < |secs| ensures env.embed(i, EmbeddedText(secs[i])).Some? && env.upsertOk(i) {
      assert env.readOk(i);
    }
  }

  // ------------------------------------------------------------------ what is stored

  /** The row that a listing stores: its title, content and path, the embedding of title, newline and content, and the
      hash of the content. */
  ghost predicate Written(env: Env, row: Row, s: Section, i: nat) {
    var embedding := env.embed(i, s.title + "\n" + s.content);
    && embedding.Some?
    && row.title == s.title && row.content == s.content && row.path == s.path
    && row.embedding == embedding.value && row.hash == env.hash(s.content)
  }

  lemma {:induction false} RowAfterIsOldOrWritten(env: Env, row: Option<Row>, secs: seq<Section>, id: string)
    ensures var after := RowAfter(env, row, secs, id);
            || after == row
            || exists i | 0 <= i < |secs| :: secs[i].id == id && after.Some? && Written(env, after.value, secs[i], i)
  {
    if secs == [] {
    } else {
      var n := |secs| - 1;
      RowAfterIsOldOrWritten(env, row, secs[..n], id);
      var before, after := RowAfter(env, row, secs[..n], id), RowAfter(env, row, secs, id);
      if after == before {
        if after != row {
          var i :| 0 <= i < n && secs[..n][i].id == id && Written(env, after.value, secs[..n][i], i);
          assert secs[i].id == id && Written(env, after.value, secs[i], i);
        }
      } else {
        assert secs[n].id == id && Written(env, after.value, secs[n], n);
      }
    }
  }

  /** Every row that a run leaves is the old one unchanged, or was written whole from one of the listings of its id. */
  lemma RowIsOldOrWritten(env: Env, rows: map<string, Row>, secs: seq<Section>, id: string)
    requires id in Run(env, rows, secs)
    ensures var row := Run(env, rows, secs)[id];
            || (id in rows && row == rows[id])
            || exists i | 0 <= i < |secs| :: secs[i].id == id && Written(env, row, secs[i], i)
  {
    PassIsPerId(env, rows, secs, id);
    RowAfterIsOldOrWritten(env, Lookup(rows, id), secs, id);
  }

  /** Listing by listing: a readable stored hash that matches skips it; otherwise it is stored when it can be embedded
      and written, and changes nothing when it cannot. */
  lemma EachListing(env: Env, rows: map<string, Row>, secs: seq<Section>, i: nat)
    requires GoodHash(env.hash) && i < |secs|
    ensures var before, after, s := Pass(env, rows, secs[..i]), Pass(env, rows, secs[..i + 1]), secs[i];
            if env.readOk(i) && s.id in before.rows && before.rows[s.id].hash == env.hash(s.content) then
              after.rows == before.rows && after.embedded == before.embedded && after.skipped == before.skipped + 1
            else if env.embed(i, s.title + "\n" + s.content).None? || !env.upsertOk(i) then after == before
            else
              && s.id in after.rows && Written(env, after.rows[s.id], s, i)
              && after.rows - {s.id} == before.rows - {s.id}
              && after.embedded == before.embedded + 1 && after.skipped == before.skipped
  {
    assert secs[..i + 1][..i] == secs[..i];
    assert env.hash(secs[i].content) != "";
  }

  // ------------------------------------------------------------------ when the whole rows agree with a rebuild

  /** The model's embedding depends on the text alone. */
  ghost predicate Deterministic(env: Env) {
    forall i: nat, j: nat, text {:trigger env.embed(i, text), env.embed(j, text)} ::
      env.embed(i, text) == env.embed(j, text)
  }

  function RebuiltRow(env: Env, sec: Section): Row
    requires env.embed(0, EmbeddedText(sec)).Some?
  {
    FreshRow(env, sec, env.embed(0, EmbeddedText(sec)).value)
  }

  /** The first section listed under an id. */
  function FirstListed(secs: seq<Section>, id: string): Option<Section> {
    if secs == [] then None
    else
      var n := |secs| - 1;
      var first := FirstListed(secs[..n], id);
      if first.None? && secs[n].id == id then Some(secs[n]) else first
  }

  predicate ContentChanges(secs: seq<Section>, id: string, content: string) {
    exists i | 0 <= i < |secs| :: secs[i].id == id && secs[i].content != content
  }

  lemma {:induction false} RowAgainstRebuild(env: Env, row: Row, secs: seq<Section>, id: string)
    requires GoodHash(env.hash) && NothingFails(env) && Deterministic(env) && RowConsistent(env, Some(row))
    ensures var first := FirstListed(secs, id);
            if ContentChanges(secs, id, row.content)
            then RowAfter(env, Some(row), secs, id) == RowAfter(env, None, secs, id)
            else
              && RowAfter(env, Some(row), secs, id) == Some(row)
              && RowAfter(env, None, secs, id) == (if first.None? then None else Some(RebuiltRow(env, first.value)))
              && (first.Some? ==> first.value.content == row.content)
  {
    if secs == [] {
    } else {
      var n := |secs| - 1;
      RowAgainstRebuild(env, row, secs[..n], id);
      RowStaysConsistent(env, Some(row), secs[..n], id);
      RowStaysConsistent(env, None, secs[..n], id);
      ChangesSnoc(secs, id, row.content);
      assert env.readOk(n) && env.upsertOk(n) && env.embed(n, EmbeddedText(secs[n])).Some?;
      assert env.embed(n, EmbeddedText(secs[n])) == env.embed(0, EmbeddedText(secs[n]));
    }
  }

  lemma ChangesSnoc(secs: seq<Section>, id: string, content: string)
    requires secs != []
    ensures var n := |secs| - 1;
            ContentChanges(secs, id, content)
            <==> ContentChanges(secs[..n], id, content) || (secs[n].id == id && secs[n].content != content)
  {
    var n := |secs| - 1;
    if ContentChanges(secs[..n], id, content) {
      var i :| 0 <= i < n && secs[..n][i].id == id && secs[..n][i].content != content;
      assert secs[i].id == id && secs[i].content != content;
    }
    if ContentChanges(secs, id, content) {
      var i :| 0 <= i < |secs| && secs[i].id == id && secs[i].content != content;
      if i < n { assert secs[..n][i].id == id && secs[..n][i].content != content; }
    }
  }

  /** A stored row survives a run untouched when every listing of its id has the stored content; it then agrees with a
      rebuild only if it is the row a rebuild would write for the first listing. */
  predicate UpToDate(env: Env, rows: map<string, Row>, secs: seq<Section>, id: string)
    requires id in rows
  {
    var first := FirstListed(secs, id);
    ContentChanges(secs, id, rows[id].content) || first.None?
    || (env.embed(0, EmbeddedText(first.value)).Some? && rows[id] == RebuiltRow(env, first.value))
  }

  lemma {:induction false} FirstListedIff(secs: seq<Section>, id: string)
    ensures FirstListed(secs, id).Some? <==> id in Ids(secs)
  {
    if secs == [] {
    } else {
      var n := |secs| - 1;
      IdsSnoc(secs, n);
      assert secs[..n + 1] == secs;
      FirstListedIff(secs[..n], id);
    }
  }

  lemma RowEqualIff(env: Env, rows: map<string, Row>, secs: seq<Section>, id: string)
    requires GoodHash(env.hash) && NothingFails(env) && Deterministic(env) && Consistent(env, rows)
    ensures Lookup(Run(env, rows, secs), id) == Lookup(Run(env, map[], secs), id)
            <==> (id in rows ==> UpToDate(env, rows, secs, id))
  {
    PassIsPerId(env, rows, secs, id);
    PassIsPerId(env, map[], secs, id);
    FirstListedIff(secs, id);
    if id in rows {
      RowAgainstRebuild(env, rows[id], secs, id);
    }
  }

  /** Titles, paths and embeddings included, a re-index equals a rebuild exactly when every stored row whose content is
      listed unchanged is the row a rebuild would write. */
  lemma ReindexEqualsRebuildIff(env: Env, rows: map<string, Row>, secs: seq<Section>)
    requires GoodHash(env.hash) && NothingFails(env) && Deterministic(env) && Consistent(env, rows)
    ensures Run(env, rows, secs) == Run(env, map[], secs) <==> forall id <- rows :: UpToDate(env, rows, secs, id)
  {
    var a, b := Run(env, rows, secs), Run(env, map[], secs);
    if a == b {
      forall id | id in rows ensures UpToDate(env, rows, secs, id) {
        RowEqualIff(env, rows, secs, id);
      }
    }
    if forall id <- rows :: UpToDate(env, rows, secs, id) {
      forall id ensures Lookup(a, id) == Lookup(b, id) {
        RowEqualIff(env, rows, secs, id);
      }
      assert forall id :: id in a <==> Lookup(a, id).Some?;
      assert forall id <- a :: id in b && Lookup(b, id).value == a[id];
      assert a.Keys == b.Keys;
    }
  }

  /** A renamed section with unchanged content keeps its old title. */
  lemma TitlesAreNotRefreshed(env: Env, sec: Section, title: string)
    requires GoodHash(env.hash) && NothingFails(env) && sec.title != title
    ensures var rows := Run(env, map[], [sec]);
            var renamed := [sec.(title := title)];
            && sec.id in Run(env, rows, renamed) && Run(env, rows, renamed)[sec.id].title == sec.title
            && sec.id in Run(env, map[], renamed) && Run(env, map[], renamed)[sec.id].title == title
  {
    var renamed := sec.(title := title);
    RunOfOne(env, map[], sec);
    RunOfOne(env, map[], renamed);
    RunOfOne(env, Run(env, map[], [sec]), renamed);
  }

  lemma RunOfOne(env: Env, rows: map<string, Row>, sec: Section)
    requires NothingFails(env)
    ensures sec.id in Run(env, rows, [sec]) || StoredHash(rows, sec.id) == env.hash(sec.content)
    ensures sec.id in rows && rows[sec.id].hash == env.hash(sec.content) ==>
              sec.id in Run(env, rows, [sec]) && Run(env, rows, [sec])[sec.id] == rows[sec.id]
    ensures StoredHash(rows, sec.id) != env.hash(sec.content) ==>
              && sec.id in Run(env, rows, [sec])
              && Run(env, rows, [sec])[sec.id] == FreshRow(env, sec, env.embed(0, EmbeddedText(sec)).value)
  {
    assert [sec][..0] == [];
    assert [sec][0].id in Ids([sec]);
    assert env.readOk(0) && env.upsertOk(0) && env.embed(0, EmbeddedText(sec)).Some?;
    assert Pass(env, rows, [sec]) == ProcessOne(env, Progress(rows, 0, 0), sec, 0);
  }

  // ------------------------------------------------------------------ running it twice

  predicate OneContentPerId(secs: seq<Section>) {
    forall i, j | 0 <= i < |secs| && 0 <= j < |secs| && secs[i].id == secs[j].id :: secs[i].content == secs[j].content
  }

  lemma {:induction false} PassSkipsAll(env: Env, rows: map<string, Row>, secs: seq<Section>)
    requires forall i: nat :: env.readOk(i)
    requires forall i | 0 <= i < |secs| :: secs[i].id in rows && rows[secs[i].id].hash == env.hash(secs[i].content)
    ensures Pass(env, rows, secs) == Progress(rows, 0, |secs|)
  {
    if secs == [] {
    } else {
      PassSkipsAll(env, rows, secs[..|secs| - 1]);
      assert env.readOk(|secs| - 1);
    }
  }

  lemma {:induction false} EmbeddedGrows(env: Env, rows: map<string, Row>, secs: seq<Section>, n: nat)
    requires n <= |secs|
    ensures Pass(env, rows, secs[..n]).embedded <= Pass(env, rows, secs).embedded
    decreases |secs| - n
  {
    if n < |secs| {
      assert secs[..n + 1][..n] == secs[..n];
      EmbeddedGrows(env, rows, secs, n + 1);
    } else {
      assert secs[..n] == secs;
    }
  }

  /** If nothing has been embedded so far, the table is untouched. */
  lemma {:induction false} NothingEmbedded(env: Env, rows: map<string, Row>, secs: seq<Section>)
    requires Pass(env, rows, secs).embedded == 0
    ensures Pass(env, rows, secs).rows == rows
  {
    if secs == [] {
    } else {
      NothingEmbedded(env, rows, secs[..|secs| - 1]);
    }
  }

  lemma ChangedListingIsEmbedded(env: Env, rows: map<string, Row>, secs: seq<Section>, k: nat)
    requires NothingFails(env) && k < |secs| && secs[k].id in rows
    requires rows[secs[k].id].hash != env.hash(secs[k].content)
    ensures Pass(env, rows, secs).embedded > 0
  {
    EmbeddedGrows(env, rows, secs, k);
    EmbeddedGrows(env, rows, secs, k + 1);
    assert secs[..k + 1][..k] == secs[..k];
    if Pass(env, rows, secs[..k]).embedded == 0 {
      NothingEmbedded(env, rows, secs[..k]);
      assert env.readOk(k) && env.upsertOk(k) && env.embed(k, EmbeddedText(secs[k])).Some?;
    }
  }

  /** An immediate second run embeds nothing exactly when no id is listed with two different contents. */
  lemma SecondRunEmbedsNothingIff(env: Env, rows: map<string, Row>, secs: seq<Section>)
    requires GoodHash(env.hash) && NothingFails(env) && Consistent(env, rows)
    ensures Pass(env, Run(env, rows, secs), secs).embedded == 0 <==> OneContentPerId(secs)
  {
    var first := Run(env, rows, secs);
    ReindexIsRebuild(env, rows, secs);
    NothingFailsSucceeds(env, secs);
    assert forall i | 0 <= i < |secs| :: secs[i].id in Ids(secs);
    if OneContentPerId(secs) {
      forall i | 0 <= i < |secs| ensures first[secs[i].id].hash == env.hash(secs[i].content) {
        var last := LastListed(secs, secs[i].id);
      }
      PassSkipsAll(env, first, secs);
    } else {
      var i, j :| 0 <= i < |secs| && 0 <= j < |secs| && secs[i].id == secs[j].id && secs[i].content != secs[j].content;
      var k := if first[secs[i].id].content != secs[i].content then i else j;
      ChangedListingIsEmbedded(env, first, secs, k);
    }
  }
}
