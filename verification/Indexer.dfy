/** The indexer on those tables (search/indexer.go, search/db.go). Each database
    statement is a method; it may fail, and a failed one may or may not have taken
    effect. Every statement asks for and keeps `Valid`, so the index is consistent
    wherever the process stops. */
module Indexer {
  import opened Options
  import opened IndexTables
  import Chunker
  import Trim
  import NoteMarkers

  const MAX_BATCH_INPUTS: nat := 8
  const MAX_BATCH_RUNES: nat := 4000

  class Index {
    var notes: Notes
    var nextId: nat
    /** Whether embeddings are made, by which model, and from which descriptions. */
    const embeddings: bool
    const model: string
    const describe: Describe

    predicate Valid()
      reads this
    {
      Consistent(notes, nextId)
    }

    constructor (embeddings: bool, model: string, describe: Describe)
      ensures Valid() && notes == map[] && AllSound(notes, describe) && Settled(notes)
    {
      notes, nextId, this.embeddings, this.model, this.describe := map[], 1, embeddings, model, describe;
    }

    /** A statement fails before or after its effect, or succeeds. */
    method Statement() returns (effect: bool, ok: bool)
      ensures ok ==> effect
    {
      effect := *;
      ok := *;
      ok := ok && effect;
    }

    // ------------------------------------------------------------ statements

    method UpsertNote(relpath: string, f: File) returns (ok: bool)
      requires Valid()
      modifies this
      ensures Valid()
      ensures notes == old(notes) || (relpath in notes && notes == old(notes)[relpath := notes[relpath]])
      ensures relpath in old(notes) ==> relpath in notes
      ensures ok ==>
        && relpath in notes && notes[relpath].content == f.content && SameMeta(notes[relpath], f)
        && Stale(notes[relpath]) && !Marked(notes[relpath])
        && notes == old(notes)[relpath := notes[relpath]]
      ensures notes != old(notes) ==> !Marked(notes[relpath])
      // a known note keeps its id, its chunk rows and their vectors; a new one has none
      ensures relpath in old(notes) ==>
        var was := old(notes)[relpath];
        notes[relpath] == was.(mtime := notes[relpath].mtime, size := notes[relpath].size, hash := notes[relpath].hash,
                               content := notes[relpath].content, version := notes[relpath].version, embedded := notes[relpath].embedded)
      ensures relpath !in old(notes) && relpath in notes ==> notes[relpath].rows == map[] && notes[relpath].vectors == map[]
    {
      hide Consistent, Derived, NoteMarkers.Digest;
      var effect;
      effect, ok := Statement();
      if effect {
        var hash := NoteMarkers.Digest(f.content);
        var n: Note;
        if relpath in notes {
          var was := notes[relpath];
          NoteOf(notes, nextId, relpath);
          n := Note(was.id, Micros(f.mtime), f.size, hash, f.content, 0, was.rows, NO_MARKER, was.vectors);
          RowPut(notes, nextId, relpath, n);
        } else {
          n := Note(nextId, Micros(f.mtime), f.size, hash, f.content, 0, map[], NO_MARKER, map[]);
          FirstId(notes, nextId);
          RowAdded(notes, nextId, relpath, n);
          nextId := nextId + 1;
        }
        notes := notes[relpath := n];
      }
    }

    method TouchNoteMeta(relpath: string, f: File) returns (ok: bool)
      requires Valid()
      modifies this`notes
      ensures Valid()
      ensures notes.Keys == old(notes).Keys && forall p <- notes :: p != relpath ==> notes[p] == old(notes)[p]
      ensures relpath in notes ==>
        notes[relpath] == old(notes)[relpath].(mtime := notes[relpath].mtime, size := notes[relpath].size)
      ensures ok && relpath in notes ==> SameMeta(notes[relpath], f)
    {
      hide Consistent, Derived;
      var effect;
      effect, ok := Statement();
      if effect && relpath in notes {
        var n := notes[relpath].(mtime := Micros(f.mtime), size := f.size);
        NoteOf(notes, nextId, relpath);
        RowPut(notes, nextId, relpath, n);
        notes := notes[relpath := n];
      }
    }

    method DeleteNote(relpath: string) returns (ok: bool)
      requires Valid()
      modifies this`notes
      ensures Valid()
      ensures notes == old(notes) || notes == old(notes) - {relpath}
      ensures ok ==> notes == old(notes) - {relpath}
    {
      var effect;
      effect, ok := Statement();
      if effect { notes := notes - {relpath}; }
    }

    /** A chunk row is only ever written under a note that is not marked current. */
    method UpsertChunk(relpath: string, key: Key, row: Projection) returns (ok: bool)
      requires Valid() && relpath in notes && Stale(notes[relpath])
      modifies this`notes
      ensures Valid() && WroteRows(old(notes), notes, relpath) && Stale(notes[relpath])
      ensures var after := old(notes)[relpath].(rows := old(notes)[relpath].rows[key := row]);
        (ok ==> notes[relpath] == after) && (notes == old(notes) || notes[relpath] == after)
    {
      hide Consistent, Derived;
      var effect;
      effect, ok := Statement();
      if effect {
        var n := notes[relpath].(rows := notes[relpath].rows[key := row]);
        NoteOf(notes, nextId, relpath);
        RowPut(notes, nextId, relpath, n);
        notes := notes[relpath := n];
      }
    }

    /** The embeddings of a deleted chunk row go with it. */
    method DeleteChunks(relpath: string, keys: set<Key>) returns (ok: bool)
      requires Valid() && relpath in notes && Stale(notes[relpath])
      modifies this`notes
      ensures Valid() && WroteRows(old(notes), notes, relpath) && Stale(notes[relpath])
      ensures ok ==> notes[relpath] == WithoutRows(old(notes)[relpath], keys)
      ensures notes == old(notes) || notes[relpath] == WithoutRows(old(notes)[relpath], keys)
    {
      if keys == {} {
        assert WithoutRows(notes[relpath], keys) == notes[relpath];
        return true;
      }
      hide Consistent, Derived;
      var effect;
      effect, ok := Statement();
      if effect {
        var n := WithoutRows(notes[relpath], keys);
        NoteOf(notes, nextId, relpath);
        RowPut(notes, nextId, relpath, n);
        notes := notes[relpath := n];
      }
    }

    /** The commit point: it asks for rows that agree with the content. */
    method MarkNoteChunksCurrent(relpath: string) returns (ok: bool)
      requires Valid() && relpath in notes && notes[relpath].rows == Derived(notes[relpath].content)
      modifies this`notes
      ensures Valid() && WroteRows(old(notes), notes, relpath)
      ensures ok ==> notes[relpath] == old(notes)[relpath].(version := CURRENT_INDEX_VERSION)
    {
      hide Consistent, Derived;
      var effect;
      effect, ok := Statement();
      if effect {
        var n := notes[relpath].(version := CURRENT_INDEX_VERSION);
        NoteOf(notes, nextId, relpath);
        RowPut(notes, nextId, relpath, n);
        notes := notes[relpath := n];
      }
    }

    method InvalidateNoteEmbeddings(relpath: string) returns (ok: bool)
      requires Valid() && relpath in notes
      modifies this`notes
      ensures Valid() && WroteRows(old(notes), notes, relpath)
      ensures var after := old(notes)[relpath].(embedded := NO_MARKER);
        (ok ==> notes[relpath] == after) && (notes == old(notes) || notes[relpath] == after)
    {
      hide Consistent, Derived;
      var effect;
      effect, ok := Statement();
      if effect {
        var n := notes[relpath].(embedded := NO_MARKER);
        NoteOf(notes, nextId, relpath);
        RowPut(notes, nextId, relpath, n);
        notes := notes[relpath := n];
      }
    }

    /** An embedding row refers to a chunk row. */
    method UpsertChunkEmbedding(relpath: string, key: Key, v: Vector) returns (ok: bool)
      requires Valid() && relpath in notes && key in notes[relpath].rows
      modifies this`notes
      ensures Valid()
      ensures var after := old(notes)[relpath := WithVector(old(notes)[relpath], key, v)];
        (ok ==> notes == after) && (notes == old(notes) || notes == after)
    {
      hide Consistent, Derived;
      var effect;
      effect, ok := Statement();
      if effect {
        var n := WithVector(notes[relpath], key, v);
        NoteOf(notes, nextId, relpath);
        RowPut(notes, nextId, relpath, n);
        notes := notes[relpath := n];
      }
    }

    method MarkNoteEmbeddingsCurrent(relpath: string) returns (ok: bool)
      requires Valid() && relpath in notes
      modifies this`notes
      ensures Valid()
      ensures var after := old(notes)[relpath := old(notes)[relpath].(embedded := Current(model))];
        (ok ==> notes == after) && (notes == old(notes) || notes == after)
    {
      hide Consistent, Derived;
      var effect;
      effect, ok := Statement();
      if effect {
        var n := notes[relpath].(embedded := Current(model));
        NoteOf(notes, nextId, relpath);
        RowPut(notes, nextId, relpath, n);
        notes := notes[relpath := n];
      }
    }

    // ------------------------------------------------------------- reindexing

    method UpsertChunks(relpath: string, chunks: seq<Chunker.Chunk>) returns (ok: bool)
      requires Valid() && relpath in notes && Stale(notes[relpath])
      modifies this`notes
      ensures Valid() && WroteRows(old(notes), notes, relpath) && Stale(notes[relpath])
      ensures ok ==> notes[relpath] == old(notes)[relpath].(rows := old(notes)[relpath].rows + RowsOf(chunks))
    {
      hide NoteOk, Consistent, Derived;
      ok := true;
      for i := 0 to |chunks|
        invariant ok && Valid() && WroteRows(old(notes), notes, relpath) && Stale(notes[relpath])
        invariant notes[relpath] == old(notes)[relpath].(rows := old(notes)[relpath].rows + RowsOf(chunks[..i]))
      {
        var c := chunks[i];
        ok := UpsertChunk(relpath, Key(c.kind, c.ord), Projection(c.text, c.headingPath));
        if !ok { return; }
        assert chunks[..i + 1][..i] == chunks[..i] && chunks[..i + 1][i] == c;
      }
      assert chunks[..|chunks|] == chunks;
    }

    /** reindexChunks */
    method ReindexChunks(relpath: string, body: string) returns (ok: bool)
      requires Valid() && relpath in notes && Stale(notes[relpath]) && body == Body(notes[relpath].content)
      modifies this`notes
      ensures Valid() && WroteRows(old(notes), notes, relpath)
      ensures ok ==> notes[relpath] == Reindexed(old(notes)[relpath])
    {
      var chunks := Chunker.ChunkContent(body);
      ghost var wanted, note := RowsOf(chunks), notes[relpath];
      assert wanted == Derived(note.content);
      hide NoteOk, Consistent, Derived, RowsOf, Body, Chunker.Chunks;
      var existing, read := ListChunkHashes(relpath);
      if !read { return false; }
      var rows := RowsFor(chunks);
      var embeddingsStale := existing != rows;
      ok := UpsertChunks(relpath, chunks);
      if !ok { return; }
      ok := DeleteChunks(relpath, existing.Keys - rows.Keys);
      if !ok { return; }
      OnlyTheNew(note);
      if embeddingsStale {
        ok := InvalidateNoteEmbeddings(relpath);
        if !ok { return; }
      }
      ok := MarkNoteChunksCurrent(relpath);
    }

    method ListChunkHashes(relpath: string) returns (rows: Rows, ok: bool)
      requires relpath in notes
      ensures ok ==> rows == notes[relpath].rows
    {
      ok := *;
      rows := notes[relpath].rows;
    }

    // --------------------------------------------------------------- backfill

    /** The stale note with the least id above `after`. */
    method NextStale(after: nat) returns (next: Option<string>)
      requires Valid()
      ensures next.None? ==> forall p <- notes :: !(Stale(notes[p]) && notes[p].id > after)
      ensures next.Some? ==> IsNextStale(notes, after, next.value)
    {
      hide NoteOk;
      var rest := notes.Keys;
      next := None;
      while rest != {}
        invariant rest <= notes.Keys
        invariant next.Some? ==> next.value in notes && Stale(notes[next.value]) && notes[next.value].id > after
        invariant forall p <- notes :: p !in rest && Stale(notes[p]) && notes[p].id > after
                    ==> next.Some? && notes[next.value].id <= notes[p].id
        decreases rest
      {
        var p := AnyKey(rest);
        rest := rest - {p};
        if Stale(notes[p]) && notes[p].id > after && (next.None? || notes[p].id < notes[next.value].id) {
          next := Some(p);
        }
      }
    }

    /** ORDER BY id LIMIT: a page of stale notes, and whether the query succeeded. */
    method NotesNeedingChunks(after: nat, limit: nat) returns (page: seq<string>, ok: bool)
      requires Valid() && limit > 0
      ensures IsPage(notes, after, limit, page)
    {
      hide NoteOk;
      ok := *;
      page := [];
      var last := after;
      while |page| < limit
        invariant IsPart(notes, after, last, page) && |page| <= limit
        decreases limit - |page|
      {
        var next := NextStale(last);
        if next.None? { return; }
        page := page + [next.value];
        last := notes[next.value].id;
      }
    }

    /** backfillChunks: false if a query failed or the pass was cancelled; `failures`
        counts the notes skipped after an error. */
    method BackfillChunks() returns (ok: bool, failures: nat)
      requires Valid()
      modifies this`notes
      ensures Valid() && SameSources(old(notes), notes) && KeepsUnless(old(notes), notes, describe, failures)
      ensures ok && failures == 0 ==> forall p <- notes :: !Stale(notes[p])
    {
      var afterId := 0;
      failures, ok := 0, true;
      assert NoneStaleUpTo(notes, 0);
      hide NoteOk, KeepsUnless;
      KeepsStart(notes, describe);
      while true
        invariant Valid() && SameSources(old(notes), notes) && ok && afterId < nextId
        invariant KeepsUnless(old(notes), notes, describe, failures)
        invariant failures == 0 ==> NoneStaleUpTo(notes, afterId)
        decreases nextId - afterId
      {
        var cancelled: bool := *;
        if cancelled { return false, failures; }
        var page, read := NotesNeedingChunks(afterId, BACKFILL_PAGE_SIZE);
        if !read { return false, failures; }
        if |page| == 0 {
          return;
        }
        ghost var start, before, sofar := afterId, notes, failures;
        afterId, failures := BackfillPage(page, afterId, failures);
        assert afterId > start;
        KeepsOn(old(notes), before, notes, describe, sofar, failures);
      }
    }

    method BackfillNote(relpath: string) returns (done: bool)
      requires Valid() && relpath in notes && Stale(notes[relpath])
      modifies this`notes
      ensures Valid() && WroteRows(old(notes), notes, relpath)
      ensures KeepsUnless(old(notes), notes, describe, if done then 0 else 1)
      ensures done ==> !Stale(notes[relpath])
    {
      hide NoteOk, Consistent, KeepsUnless;
      var body := Body(notes[relpath].content);
      done := UpdateNoteParsed();
      if done { done := ReindexChunks(relpath, body); }
      ReindexKeeps(old(notes), notes, describe, relpath, done);
    }

    /** One page: the last id, and the failures so far. */
    method BackfillPage(page: seq<string>, after: nat, before: nat) returns (last: nat, failures: nat)
      requires Valid() && page != [] && after < nextId && IsPage(notes, after, BACKFILL_PAGE_SIZE, page)
      requires before == 0 ==> NoneStaleUpTo(notes, after)
      modifies this`notes
      ensures Valid() && SameSources(old(notes), notes) && after < last < nextId && failures >= before
      ensures KeepsUnless(old(notes), notes, describe, failures - before)
      ensures failures == 0 ==> NoneStaleUpTo(notes, last)
    {
      last, failures := after, before;
      hide NoteOk, Consistent, IsPage, IsPart, OnPage, SameSources, NoneStaleUpTo, WroteRows, KeepsUnless, Stale;
      KeepsStart(notes, describe);
      PageStart(notes, page, after);
      for i := 0 to |page|
        invariant Valid() && OnPage(old(notes), notes, page, i, after, last) && failures >= before
        invariant KeepsUnless(old(notes), notes, describe, failures - before)
        invariant failures == 0 ==> NoneStaleUpTo(notes, last)
      {
        ghost var start, sofar := notes, failures - before;
        PageNext(old(notes), notes, page, i, after, last);
        var done := BackfillNote(page[i]);
        PageStep(old(notes), start, notes, page, i, after, last);
        last := notes[page[i]].id;
        if !done { failures := failures + 1; }
        KeepsOn(old(notes), start, notes, describe, sofar, failures - before);
      }
      PageEnd(old(notes), notes, page, after, last, nextId);
    }

    /** Writes columns the model has not; it may fail. */
    method UpdateNoteParsed() returns (ok: bool)
    {
      ok := *;
    }

    // ------------------------------------------------------------- embeddings

    /** reindexEmbeddings, of a note whose chunks are current. Batch after batch the
        rows without their vector get it; then the note is marked. */
    method ReindexEmbeddings(relpath: string, force: bool) returns (ok: bool)
      requires Valid() && relpath in notes && !Stale(notes[relpath])
      modifies this`notes
      ensures var about := describe(relpath, old(notes)[relpath].content);
        && Valid() && WroteVectors(old(notes), notes, relpath, about, model)
        && (ok ==> notes[relpath].embedded == Current(model) && Embedded(notes[relpath], about, model))
    {
      var n, about := notes[relpath], describe(relpath, notes[relpath].content);
      assert NoteOk(n);
      hide *;
      NothingWrote(notes, relpath, about, model);
      var read: bool := *;
      if !read { return false; }
      var todo := Pending(n, about, model, force);
      NoneWritten(notes, relpath, about, model, todo);
      var start := 0;
      assert todo[0..] == todo;
      while start < |todo|
        invariant start <= |todo| && Valid() && Midway(old(notes), notes, relpath, about, model, todo[start..])
      {
        var end := NextBatch(todo, n.rows, about, start);
        MidwayWrote(old(notes), notes, relpath, about, model, todo[start..]);
        var answered: bool := *;
        if !answered { return false; }
        ok := UpsertBatch(relpath, n.rows, about, todo, start, end, old(notes));
        if !ok { return; }
        start := end;
      }
      MidwayWrote(old(notes), notes, relpath, about, model, []);
      AllWritten(old(notes), notes, relpath, about, model);
      ok := MarkNoteEmbeddingsCurrent(relpath);
    }

    /** Writes the vectors of one batch. */
    method UpsertBatch(relpath: string, rows: Rows, about: string, todo: seq<Key>, start: nat, end: nat, ghost before: Notes)
      returns (ok: bool)
      requires start <= end <= |todo| && (forall k <- todo :: k in rows)
      requires relpath in before && rows == before[relpath].rows
      requires Valid() && Midway(before, notes, relpath, about, model, todo[start..])
      modifies this`notes
      ensures Valid() && WroteVectors(before, notes, relpath, about, model)
      ensures ok ==> Midway(before, notes, relpath, about, model, todo[end..])
    {
      hide *;
      ok := true;
      for i := start to end
        invariant ok && Valid() && Midway(before, notes, relpath, about, model, todo[i..])
      {
        var key := todo[i];
        ghost var now := notes;
        MidwayRows(before, now, relpath, about, model, todo[i..]);
        MidwayWrote(before, now, relpath, about, model, todo[i..]);
        MidwayStep(before, now, relpath, about, model, todo, i);
        ok := UpsertChunkEmbedding(relpath, key, Wanted(about, rows[key], model));
        if !ok { return; }
      }
      MidwayWrote(before, notes, relpath, about, model, todo[end..]);
    }

    method EmbedNote(relpath: string) returns (done: bool)
      requires Valid() && relpath in notes && Needs(notes[relpath], model)
      modifies this`notes
      ensures Valid() && OnlyEmbeds(old(notes), notes, relpath) && KeepsUnless(old(notes), notes, describe, 0)
      ensures done ==> !Needs(notes[relpath], model)
    {
      ghost var before, about := notes, describe(relpath, notes[relpath].content);
      hide Consistent, NoteOk, Needs, WroteVectors, OnlyEmbeds, KeepsUnless, Embedded;
      NeedsCurrent(notes[relpath], model);
      done := ReindexEmbeddings(relpath, false);
      VectorsKeep(before, notes, describe, relpath, model);
      if done { EmbeddedNeedsNot(notes[relpath], about, model); }
    }

    /** backfillEmbeddings over the notes its pages hold; false when the embedder is
        unavailable. Other failures skip a note. */
    method BackfillEmbeddings(queue: seq<string>) returns (ok: bool, failures: nat)
      requires Valid()
      modifies this`notes
      ensures Valid() && SameRows(old(notes), notes) && KeepsUnless(old(notes), notes, describe, 0)
      ensures ok && failures == 0 ==> forall p <- queue :: p in notes ==> !Needs(notes[p], model)
    {
      ok, failures := true, 0;
      hide Consistent, Needs, Stale, KeepsUnless, SameRows, OnlyEmbeds;
      KeepsStart(notes, describe);
      SameRowsStart(notes);
      for i := 0 to |queue|
        invariant Valid() && SameRows(old(notes), notes) && KeepsUnless(old(notes), notes, describe, 0)
        invariant failures == 0 ==> forall p <- queue[..i] :: p in notes ==> !Needs(notes[p], model)
      {
        var p := queue[i];
        assert queue[..i + 1] == queue[..i] + [p];
        if p !in notes || !Needs(notes[p], model) { continue; }
        ghost var before := notes;
        var done := EmbedNote(p);
        KeepsOn(old(notes), before, notes, describe, 0, 0);
        StillEmbedded(old(notes), before, notes, queue[..i], p, model);
        if !done {
          failures := failures + 1;
          var unavailable: bool := *;
          if unavailable { return false, failures; }
        }
      }
      assert queue[..|queue|] == queue;
    }

    // ------------------------------------------------------------------- sync

    /** syncFile */
    method SyncFile(disk: map<string, File>, relpath: string, existing: Option<Note>, force: bool) returns (ok: bool)
      requires Valid() && existing == (if relpath in notes then Some(notes[relpath]) else None)
      modifies this
      ensures Valid() && OnlyPath(old(notes), notes, relpath)
      ensures KeepsUnless(old(notes), notes, describe, 0)
      ensures ok ==> Synced(old(notes), notes, disk, force, relpath)
      ensures ok && !(relpath in old(notes) && notes[relpath].content == old(notes)[relpath].content) ==>
        !Stale(notes[relpath]) && (embeddings ==> !Needs(notes[relpath], model))
    {
      hide Consistent, KeepsUnless, Needs;
      KeepsStart(notes, describe);
      var statted: bool := *;
      if !statted || relpath !in disk { return false; }
      var f := disk[relpath];
      if !force && existing.Some? && SameMeta(existing.value, f) {
        return true;
      }
      var read: bool := *;
      if !read { return false; }
      var hash := NoteMarkers.Digest(f.content);
      if !force && existing.Some? && existing.value.hash == hash {
        HashesAgree(notes, nextId, relpath, f.content);
        ok := TouchNoteMeta(relpath, f);
        TouchKeeps(old(notes), notes, describe, relpath);
        return;
      }
      ok := UpsertNote(relpath, f);
      UpsertKeeps(old(notes), notes, describe, relpath);
      if !ok { return; }
      ok := Materialize(relpath, force, old(notes));
    }

    /** The chunks of a note just written, then its embeddings where they are made. */
    method Materialize(relpath: string, force: bool, ghost before: Notes) returns (ok: bool)
      requires Valid() && relpath in notes && Stale(notes[relpath]) && !Marked(notes[relpath])
      requires KeepsUnless(before, notes, describe, 0)
      modifies this`notes
      ensures Valid() && SameText(old(notes), notes, relpath) && KeepsUnless(before, notes, describe, 0)
      ensures ok ==> !Stale(notes[relpath]) && (embeddings ==> !Needs(notes[relpath], model))
    {
      hide NoteOk, Consistent, KeepsUnless, WroteRows, WroteVectors, SameText, Needs;
      ghost var start := notes;
      ok := ReindexChunks(relpath, Body(notes[relpath].content));
      RowsText(start, notes, relpath);
      UnmarkedKeeps(start, notes, describe, relpath);
      KeepsOn(before, start, notes, describe, 0, 0);
      if ok && embeddings { ok := Embed(relpath, force, start, before); }
    }

    method Embed(relpath: string, force: bool, ghost start: Notes, ghost before: Notes) returns (ok: bool)
      requires Valid() && relpath in notes && !Stale(notes[relpath])
      requires SameText(start, notes, relpath) && KeepsUnless(before, notes, describe, 0)
      modifies this`notes
      ensures Valid() && SameText(start, notes, relpath) && KeepsUnless(before, notes, describe, 0)
      ensures ok ==> !Stale(notes[relpath]) && !Needs(notes[relpath], model)
    {
      hide NoteOk, Consistent, KeepsUnless, WroteVectors, SameText, Embedded, Needs;
      ghost var chunked, about := notes, describe(relpath, notes[relpath].content);
      ok := ReindexEmbeddings(relpath, force);
      VectorsText(start, chunked, notes, relpath, about, model);
      if ok { EmbeddedNeedsNot(notes[relpath], about, model); }
      VectorsKeep(chunked, notes, describe, relpath, model);
      KeepsOn(before, chunked, notes, describe, 0, 0);
    }

    /** syncFiles: what is left of `known` is what the listing has not. */
    method SyncFiles(disk: map<string, File>, files: seq<string>, known: Notes, force: bool) returns (rest: Notes, errors: nat)
      requires Valid() && known == notes && IsListing(files)
      modifies this
      ensures Valid() && rest == Unlisted(known, files)
      ensures OnlyPaths(old(notes), notes, files) && KeepsUnless(old(notes), notes, describe, 0)
      ensures errors == 0 ==> forall p <- files :: Synced(old(notes), notes, disk, force, p)
    {
      rest, errors := known, 0;
      hide Consistent, Synced, KeepsUnless;
      KeepsStart(notes, describe);
      for i := 0 to |files|
        invariant Valid() && OnlyPaths(old(notes), notes, files[..i]) && KeepsUnless(old(notes), notes, describe, 0)
        invariant rest == Unlisted(known, files[..i])
        invariant errors == 0 ==> forall p <- files[..i] :: Synced(old(notes), notes, disk, force, p)
      {
        ghost var start := notes;
        var p := files[i];
        var existing := if p in rest then Some(rest[p]) else None;
        KnownLess(known, files, i);
        rest := rest - {p};
        var ok := SyncFile(disk, p, existing, force);
        if !ok { errors := errors + 1; }
        OneMorePath(old(notes), start, notes, files, i);
        KeepsOn(old(notes), start, notes, describe, 0, 0);
        if errors == 0 { SyncedMore(old(notes), start, notes, disk, force, files, i); }
      }
      assert files[..|files|] == files;
    }

    method DeleteNotes(paths: set<string>) returns (errors: nat)
      requires Valid()
      modifies this`notes
      ensures Valid() && Purged(old(notes), notes, paths)
      ensures errors == 0 ==> notes == old(notes) - paths
    {
      hide Consistent;
      errors := 0;
      var rest := paths;
      while rest != {}
        invariant Valid() && rest <= paths && Purged(old(notes), notes, paths)
        invariant errors == 0 ==> notes == old(notes) - (paths - rest)
        decreases rest
      {
        var p := AnyKey(rest);
        var ok := DeleteNote(p);
        if !ok { errors := errors + 1; }
        assert paths - (rest - {p}) == (paths - rest) + {p};
        rest := rest - {p};
      }
    }

    /** syncOnce: `files` is the listing of the vault and `walkErrors` counts what
        could not be listed; `skipped` counts the notes the chunk backfill passed over,
        which `errors` does not; `queue` holds what the embedding backfill pages to. */
    method SyncOnce(disk: map<string, File>, files: seq<string>, walkErrors: nat, force: bool, queue: seq<string>)
      returns (ok: bool, errors: nat, skipped: nat)
      requires Valid() && IsListing(files)
      modifies this
      ensures Valid()
      ensures walkErrors > 0 ==> !ok
      ensures !ok ==> notes == old(notes)
      ensures forall p <- files :: p in old(notes) ==> p in notes
      ensures ok && errors == 0 && (force || Trusted(old(notes), disk)) ==> Reconciled(notes, disk, files)
      ensures ok && errors == 0 && skipped == 0 ==> forall p <- notes :: !Stale(notes[p])
      ensures ok && files == [] && errors <= 1 ==> notes == map[]
      ensures KeepsUnless(old(notes), notes, describe, skipped)
    {
      hide Consistent, OnlyPaths, Synced, SameSources, SameRows, Stale, Purged, Reconciled, IsListing, KeepsUnless;
      KeepsStart(notes, describe);
      var loaded: bool := *;
      if !loaded || walkErrors > 0 { return false, walkErrors, 0; }
      var known := notes;
      var rest;
      rest, errors := SyncFiles(disk, files, known, force);
      ghost var synced, fileErrors := notes, errors;
      var backfilled;
      backfilled, skipped := BackfillChunks();
      if !backfilled { errors := errors + 1; }
      KeepsOn(known, synced, notes, describe, 0, skipped);
      ghost var chunked := notes;
      if embeddings {
        var embedded, _ := BackfillEmbeddings(queue);
        if !embedded { errors := errors + 1; }
        KeepsOn(known, chunked, notes, describe, skipped, skipped);
      }
      ghost var filled := notes;
      StillTheSame(synced, chunked, filled);
      if |files| == 0 && |known| > 0 {
        // logged as a refusal to purge, and counted; the deletion below runs all the same
        errors := errors + 1;
      }
      var failed := DeleteNotes(rest.Keys);
      PurgeKeeps(filled, notes, describe, rest.Keys);
      KeepsOn(known, filled, notes, describe, skipped, skipped);
      errors := errors + failed;
      ok := true;
      ListedStay(known, synced, filled, notes, files);
      if fileErrors == 0 && failed == 0 && (force || Trusted(known, disk)) {
        Reconciling(known, synced, filled, notes, disk, files, force);
      }
      PurgedAll(known, synced, filled, notes, files);
      NoneStaleStays(filled, notes, rest.Keys);
    }
  }

  /** The rows whose vector is missing or out of date, or all. */
  method Pending(n: Note, about: string, model: string, force: bool) returns (todo: seq<Key>)
    ensures forall k <- todo :: k in n.rows
    ensures LeftToDo(n, n.vectors, about, model, todo)
    ensures !force ==> forall k <- todo :: k !in n.vectors || n.vectors[k] != Wanted(about, n.rows[k], model)
    ensures force ==> forall k <- n.rows :: k in todo
  {
    todo := [];
    var rest := n.rows.Keys;
    while rest != {}
      invariant rest <= n.rows.Keys && forall k <- todo :: k in n.rows
      invariant forall k <- n.rows :: k in rest || k in todo || (k in n.vectors && n.vectors[k] == Wanted(about, n.rows[k], model))
      invariant !force ==> forall k <- todo :: k !in n.vectors || n.vectors[k] != Wanted(about, n.rows[k], model)
      invariant force ==> forall k <- n.rows :: k in rest || k in todo
      decreases rest
    {
      assert (forall x :: x !in rest) ==> rest == {};
      var k :| k in rest;
      rest := rest - {k};
      if !force && k in n.vectors && n.vectors[k] == Wanted(about, n.rows[k], model) { continue; }
      todo := todo + [k];
    }
  }

  function Runes(keys: seq<Key>, rows: Rows, about: string): nat
    requires forall k <- keys :: k in rows
  {
    if keys == [] then 0 else Runes(keys[..|keys| - 1], rows, about) + |Input(about, rows[keys[|keys| - 1]])|
  }

  lemma NoRunes(todo: seq<Key>, rows: Rows, about: string, start: nat)
    requires start <= |todo|
    ensures Runes(todo[start..start], rows, about) == 0
  {
  }

  lemma RunesStep(todo: seq<Key>, rows: Rows, about: string, start: nat, end: nat)
    requires start <= end < |todo| && forall k <- todo :: k in rows
    ensures Runes(todo[start..end + 1], rows, about) == Runes(todo[start..end], rows, about) + |Input(about, rows[todo[end]])|
  {
    hide Input;
    assert todo[start..end + 1][..end - start] == todo[start..end] && todo[start..end + 1][end - start] == todo[end];
  }

  /** The next batch: at most eight inputs, and more than one only within the limit of
      runes; it is as long as that allows. */
  method NextBatch(todo: seq<Key>, rows: Rows, about: string, start: nat) returns (end: nat)
    requires start < |todo| && forall k <- todo :: k in rows
    ensures start < end <= |todo| && end - start <= 8
    ensures end - start > 1 ==> Runes(todo[start..end], rows, about) <= 4000
    ensures end < |todo| && end - start < 8 ==> Runes(todo[start..end + 1], rows, about) > 4000
  {
    hide Input, Runes;
    end := start;
    NoRunes(todo, rows, about, start);
    var batchRunes := 0;
    while end < |todo| && end - start < MAX_BATCH_INPUTS
      invariant start <= end <= |todo| && end - start <= MAX_BATCH_INPUTS
      invariant batchRunes == Runes(todo[start..end], rows, about)
      invariant end - start > 1 ==> batchRunes <= MAX_BATCH_RUNES
    {
      var n := |Input(about, rows[todo[end]])|;
      RunesStep(todo, rows, about, start, end);
      if end > start && batchRunes + n > MAX_BATCH_RUNES { break; }
      batchRunes := batchRunes + n;
      end := end + 1;
    }
  }

  method AnyKey(keys: set<string>) returns (k: string)
    requires keys != {}
    ensures k in keys
  {
    assert (forall x :: x !in keys) ==> keys == {};
    k :| k in keys;
  }

  /** The rows the chunks should have: what else there is, is stale, and whether any
      of them differs from what is there decides over the embeddings. */
  method RowsFor(chunks: seq<Chunker.Chunk>) returns (rows: Rows)
    ensures rows == RowsOf(chunks)
  {
    rows := map[];
    for i := 0 to |chunks|
      invariant rows == RowsOf(chunks[..i])
    {
      assert chunks[..i + 1][..i] == chunks[..i];
      rows := rows[Key(chunks[i].kind, chunks[i].ord) := Projection(chunks[i].text, chunks[i].headingPath)];
    }
    assert chunks[..|chunks|] == chunks;
  }
}
