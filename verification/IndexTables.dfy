/** The tables of the search index: note rows, the chunk rows and embeddings derived
    from them, the markers that say they agree, and what a step from one state to
    another keeps (search/indexer.go, search/db.go). */
module IndexTables {
  import opened Options
  import Chunker
  import Trim
  import NoteMarkers

  const CURRENT_INDEX_VERSION: int := 3
  const CURRENT_EMBEDDING_VERSION: int := 2
  const BACKFILL_PAGE_SIZE: nat := 200

  datatype Key = Key(kind: Chunker.Kind, ord: nat)

  datatype Projection = Projection(text: string, headingPath: string)

  type Rows = map<Key, Projection>

  /** Version and model of one embedding, or of a note's embeddings as a whole. */
  datatype Marker = Marker(version: int, model: string)

  const NO_MARKER: Marker := Marker(0, "")

  function Current(model: string): Marker {
    Marker(CURRENT_EMBEDDING_VERSION, model)
  }

  /** An embedding row; its vector is what the model makes of the input. */
  datatype Vector = Vector(input: string, marker: Marker)

  type Vectors = map<Key, Vector>

  /** A notes row with the chunk rows that refer to it, and the embedding rows that
      refer to these. Times are in microseconds. */
  datatype Note = Note(id: nat, mtime: int, size: int, hash: string, content: string, version: int, rows: Rows,
                       embedded: Marker, vectors: Vectors)

  /** The body ParseDocument finds in a note. */
  function Body(content: string): string {
    Trim.TrimSpace(Chunker.WithoutFrontmatter(content))
  }

  function RowsOf(chunks: seq<Chunker.Chunk>): Rows {
    if chunks == [] then map[]
    else
      var c := chunks[|chunks| - 1];
      RowsOf(chunks[..|chunks| - 1])[Key(c.kind, c.ord) := Projection(c.text, c.headingPath)]
  }

  /** The chunk rows the indexer gives a note: the chunks of its body, from which front
      matter is stripped once more (module FrontMatter says when that matters). */
  function Derived(content: string): Rows {
    RowsOf(Chunker.Chunks(Body(content)))
  }

  predicate NoteOk(n: Note) {
    && n.id >= 1 && n.hash == NoteMarkers.Digest(n.content)
    && (n.version == CURRENT_INDEX_VERSION ==> n.rows == Derived(n.content))
    && n.vectors.Keys <= n.rows.Keys
  }

  type Notes = map<string, Note>

  predicate Consistent(notes: Notes, nextId: nat) {
    && (forall p <- notes :: NoteOk(notes[p]) && notes[p].id < nextId)
    && (forall p, q :: p in notes && q in notes && notes[p].id == notes[q].id ==> p == q)
    && nextId >= 1
  }

  lemma NoteOf(notes: Notes, nextId: nat, p: string)
    requires Consistent(notes, nextId) && p in notes
    ensures NoteOk(notes[p]) && notes[p].id < nextId
  {
  }

  lemma FirstId(notes: Notes, nextId: nat)
    requires Consistent(notes, nextId)
    ensures nextId >= 1
  {
  }

  lemma RowPut(notes: Notes, nextId: nat, p: string, n: Note)
    requires Consistent(notes, nextId) && p in notes && NoteOk(n) && n.id == notes[p].id
    ensures Consistent(notes[p := n], nextId)
  {
    hide NoteOk;
  }

  lemma RowAdded(notes: Notes, nextId: nat, p: string, n: Note)
    requires Consistent(notes, nextId) && p !in notes && NoteOk(n) && n.id == nextId
    ensures Consistent(notes[p := n], nextId + 1)
  {
    hide NoteOk;
  }

  /** WHERE chunk_index_version <> current: what the backfill selects. */
  predicate Stale(n: Note) {
    n.version != CURRENT_INDEX_VERSION
  }

  /** At any point, a note whose chunk rows are not those that reindexing it would
      give is one that the backfill selects. */
  lemma DisagreeingIsSelected(notes: Notes, nextId: nat, p: string)
    requires Consistent(notes, nextId) && p in notes && notes[p].rows != Derived(notes[p].content)
    ensures Stale(notes[p])
  {
    assert NoteOk(notes[p]);
  }

  /** The row under this key is a chunk's. */
  predicate RowIs(chunks: seq<Chunker.Chunk>, k: Key, row: Projection) {
    k.ord < |chunks| && k.kind == chunks[k.ord].kind && row == Projection(chunks[k.ord].text, chunks[k.ord].headingPath)
  }

  /** Each chunk has a row of its own: keys do not collide. */
  lemma {:induction false} RowsOfChunks(chunks: seq<Chunker.Chunk>)
    requires forall m :: 0 <= m < |chunks| ==> chunks[m].ord == m
    ensures forall m :: 0 <= m < |chunks| ==> Key(chunks[m].kind, m) in RowsOf(chunks)
    ensures forall k <- RowsOf(chunks) :: RowIs(chunks, k, RowsOf(chunks)[k])
  {
    if chunks != [] {
      RowsOfChunks(chunks[..|chunks| - 1]);
    }
  }

  /** The derived rows are the chunks of the note's body, one row each. */
  lemma DerivedIsChunks(content: string)
    ensures var chunks := Chunker.Chunks(Body(content));
      && (forall m :: 0 <= m < |chunks| ==> Key(chunks[m].kind, m) in Derived(content))
      && (forall k <- Derived(content) :: RowIs(chunks, k, Derived(content)[k]))
  {
    var chunks := Chunker.Chunks(Body(content));
    Chunker.ChunksNumbered(Body(content));
    assert Derived(content) == RowsOf(chunks);
    hide *;
    RowsOfChunks(chunks);
  }

  // -------------------------------------------------------------- embeddings

  /** What a note says of itself (title, date, tags, links) from its path and content. */
  type Describe = (string, string) -> string

  /** embeddingInput */
  function Input(about: string, row: Projection): string {
    (if about == "" then "" else about + "\n")
    + (if row.headingPath == "" then "" else "Раздел: " + row.headingPath + "\n")
    + row.text
  }

  function Wanted(about: string, row: Projection, model: string): Vector {
    Vector(Input(about, row), Current(model))
  }

  /** Every row has a vector made from what the row says now, by some model. */
  predicate Fits(n: Note, about: string) {
    forall k <- n.rows :: k in n.vectors && n.vectors[k].input == Input(about, n.rows[k])
  }

  /** The same, by this model. */
  predicate Embedded(n: Note, about: string, model: string) {
    forall k <- n.rows :: k in n.vectors && n.vectors[k] == Wanted(about, n.rows[k], model)
  }

  predicate Marked(n: Note) {
    n.embedded.version != 0
  }

  /** A note marked as embedded has vectors that fit. */
  predicate Sound(n: Note, about: string) {
    Marked(n) ==> Fits(n, about)
  }

  predicate AllSound(notes: Notes, describe: Describe) {
    forall p <- notes :: Sound(notes[p], describe(p, notes[p].content))
  }

  /** No note is marked as embedded and yet stale: so it is unless the version of
      the chunker changes. */
  predicate Settled(notes: Notes) {
    forall p <- notes :: Marked(notes[p]) ==> !Stale(notes[p])
  }

  /** WHERE of NotesNeedingEmbeddings: what the embedding backfill selects. */
  predicate Needs(n: Note, model: string) {
    !Stale(n) && (n.embedded != Current(model) || exists k <- n.rows :: k !in n.vectors || n.vectors[k].marker != Current(model))
  }

  /** Of a sound note with current chunks, the backfill passes over exactly those that
      are marked for the model and whose rows all have its vectors. */
  lemma NeedsExactly(n: Note, about: string, model: string)
    requires Sound(n, about) && !Stale(n)
    ensures !Needs(n, model) <==> n.embedded == Current(model) && Embedded(n, about, model)
  {
    if !Needs(n, model) {
      forall k <- n.rows ensures k in n.vectors && n.vectors[k] == Wanted(about, n.rows[k], model) {
        assert n.vectors[k].input == Input(about, n.rows[k]);
      }
    }
  }

  lemma NeedsCurrent(n: Note, model: string)
    requires Needs(n, model)
    ensures !Stale(n)
  {
  }

  lemma EmbeddedNeedsNot(n: Note, about: string, model: string)
    requires n.embedded == Current(model) && Embedded(n, about, model)
    ensures !Needs(n, model)
  {
  }

  /** The input of an embedding: what the note says of itself on lines of its own, then the
      heading path as its section, then the text; what is empty has no line. */
  lemma InputLines(about: string, row: Projection)
    ensures about == "" && row.headingPath == "" ==> Input(about, row) == row.text
    ensures about != "" && row.headingPath == "" ==> Input(about, row) == about + "\n" + row.text
    ensures about == "" && row.headingPath != "" ==> Input(about, row) == "Раздел: " + row.headingPath + "\n" + row.text
    ensures about != "" && row.headingPath != "" ==>
      Input(about, row) == about + "\n" + ("Раздел: " + row.headingPath + "\n") + row.text
  {
    assert "" + row.text == row.text;
  }

  /** Chunks are current in version 3, embeddings in version 2. */
  lemma CurrentVersions(n: Note, model: string)
    ensures Stale(n) <==> n.version != 3
    ensures Needs(n, model) <==>
      (n.version == 3 && (n.embedded != Marker(2, model) || exists k <- n.rows :: k !in n.vectors || n.vectors[k].marker != Marker(2, model)))
  {
  }

  // ----------------------------------------------------------- rows of one note

  function WithoutRows(n: Note, keys: set<Key>): Note {
    n.(rows := n.rows - keys, vectors := n.vectors - keys)
  }

  function WithVector(n: Note, key: Key, v: Vector): Note {
    n.(vectors := n.vectors[key := v])
  }

  /** Only rows and markers of one note may differ, and it is not marked as embedded anew. */
  predicate WroteRows(before: Notes, after: Notes, relpath: string) {
    && after.Keys == before.Keys && relpath in before
    && (forall p <- after :: p != relpath ==> after[p] == before[p])
    && after[relpath] == before[relpath].(rows := after[relpath].rows, version := after[relpath].version,
                                          embedded := after[relpath].embedded, vectors := after[relpath].vectors)
    && (after[relpath].embedded == before[relpath].embedded || after[relpath].embedded == NO_MARKER)
  }

  /** Only rows and markers differ: no note came, went or changed its content. */
  predicate SameSources(before: Notes, after: Notes) {
    && after.Keys == before.Keys
    && forall p <- after :: after[p] == before[p].(rows := after[p].rows, version := after[p].version,
                                                   embedded := after[p].embedded, vectors := after[p].vectors)
  }

  /** A note after a complete reindexing: a marker is kept only if no row changed. */
  function Reindexed(n: Note): Note {
    var wanted := Derived(n.content);
    n.(rows := wanted, version := CURRENT_INDEX_VERSION, embedded := if n.rows == wanted then n.embedded else NO_MARKER,
       vectors := n.vectors - (n.rows.Keys - wanted.Keys))
  }

  lemma ReindexedSound(n: Note, about: string)
    requires Sound(n, about)
    ensures Sound(Reindexed(n), about)
  {
    hide Derived, Input;
  }

  /** A note as a process leaves it that stops after writing the rows and before
      clearing the marker. */
  function Interrupted(n: Note): Note {
    Reindexed(n).(version := n.version, embedded := n.embedded)
  }

  /** Writing the new rows and deleting the other old ones leaves the new ones. */
  lemma OnlyTheNew(n: Note)
    ensures var wanted := Derived(n.content);
      WithoutRows(n.(rows := n.rows + wanted), n.rows.Keys - wanted.Keys) == Interrupted(n)
  {
    var wanted := Derived(n.content);
    hide Derived;
    assert n.rows + wanted - (n.rows.Keys - wanted.Keys) == wanted;
  }

  /** If the chunker's version changed and the process stops there, the next pass finds
      the rows as it wants them and keeps the marker. That is wrong exactly when some
      row has another input than before, and is then noticed exactly when some row is
      new: otherwise old vectors pass for current ones. */
  lemma MarkerOutlives(n: Note, about: string, model: string)
    requires NoteOk(n) && Stale(n) && n.embedded == Current(model) && Embedded(n, about, model)
    ensures var again, wanted := Reindexed(Interrupted(n)), Derived(n.content);
      && again.embedded == Current(model)
      && (Fits(again, about) <==> forall k <- wanted :: k in n.rows && Input(about, n.rows[k]) == Input(about, wanted[k]))
      && (Needs(again, model) <==> exists k <- wanted :: k !in n.rows)
  {
    var again, wanted := Reindexed(Interrupted(n)), Derived(n.content);
    hide Derived, Input, NoteMarkers.Digest;
    assert n.vectors.Keys == n.rows.Keys;
    assert again.vectors == n.vectors - (n.rows.Keys - wanted.Keys);
    forall k <- wanted ensures k in again.vectors <==> k in n.rows { }
  }

  /** A row as an older chunker may have made it. */
  function Older(row: Projection): Projection {
    row.(text := row.text + " ")
  }

  lemma InputGrows(about: string, row: Projection)
    ensures Input(about, Older(row)) != Input(about, row)
  {
    assert |Input(about, Older(row))| == |Input(about, row)| + 1;
  }

  /** Any note with a chunk has an earlier state from which this goes unnoticed: it
      was sound and is now marked, selected by neither backfill, and does not fit. */
  lemma OldVectorsCanPass(content: string, k: Key, about: string, model: string) returns (n: Note)
    requires k in Derived(content)
    ensures NoteOk(n) && Stale(n) && n.content == content && n.embedded == Current(model) && Embedded(n, about, model)
    ensures var again := Reindexed(Interrupted(n)); !Stale(again) && !Needs(again, model) && !Sound(again, about)
  {
    var wanted := Derived(content);
    var rows: Rows := map x <- wanted :: Older(wanted[x]);
    n := Note(1, 0, 0, NoteMarkers.Digest(content), content, 0, rows, Current(model),
              map x <- wanted :: Wanted(about, rows[x], model));
    hide Derived, NoteMarkers.Digest;
    InputGrows(about, wanted[k]);
    hide Input;
    MarkerOutlives(n, about, model);
    assert k in wanted && Input(about, n.rows[k]) != Input(about, wanted[k]);
  }

  // -------------------------------------------------------- vectors of one note

  /** Embedding rows of the note, each as it was or new. */
  predicate VectorsFrom(n: Note, vs: Vectors, about: string, model: string) {
    && n.vectors.Keys <= vs.Keys
    && forall k <- vs :: k in n.rows && (vs[k] == Wanted(about, n.rows[k], model) || (k in n.vectors && vs[k] == n.vectors[k]))
  }

  predicate LeftToDo(n: Note, vs: Vectors, about: string, model: string, rest: seq<Key>) {
    forall k <- n.rows :: k in rest || (k in vs && vs[k] == Wanted(about, n.rows[k], model))
  }

  /** Only vectors and marker of one note differ; it is marked anew only with all its vectors. */
  predicate WroteVectors(before: Notes, after: Notes, relpath: string, about: string, model: string) {
    && after.Keys == before.Keys && relpath in before
    && (forall p <- after :: p != relpath ==> after[p] == before[p])
    && var n, n' := before[relpath], after[relpath];
    && n' == n.(embedded := n'.embedded, vectors := n'.vectors) && VectorsFrom(n, n'.vectors, about, model)
    && (n'.embedded == n.embedded || (n'.embedded == Current(model) && Embedded(n', about, model)))
  }

  /** Only vectors and markers of embeddings differ. */
  predicate SameRows(before: Notes, after: Notes) {
    && after.Keys == before.Keys
    && forall p <- after :: after[p] == before[p].(embedded := after[p].embedded, vectors := after[p].vectors)
  }

  /** Some of the note's vectors are written, and these rows are left. */
  predicate Midway(before: Notes, now: Notes, relpath: string, about: string, model: string, rest: seq<Key>) {
    && relpath in before && relpath in now
    && now == before[relpath := before[relpath].(vectors := now[relpath].vectors)]
    && VectorsFrom(before[relpath], now[relpath].vectors, about, model)
    && LeftToDo(before[relpath], now[relpath].vectors, about, model, rest)
  }

  lemma NoneWritten(notes: Notes, relpath: string, about: string, model: string, todo: seq<Key>)
    requires relpath in notes && NoteOk(notes[relpath]) && LeftToDo(notes[relpath], notes[relpath].vectors, about, model, todo)
    ensures Midway(notes, notes, relpath, about, model, todo)
  {
    hide LeftToDo;
    var n := notes[relpath];
    assert n == n.(vectors := n.vectors) && notes == notes[relpath := n];
  }

  lemma NothingWrote(notes: Notes, relpath: string, about: string, model: string)
    requires relpath in notes && NoteOk(notes[relpath])
    ensures WroteVectors(notes, notes, relpath, about, model)
  {
    hide Embedded;
  }

  lemma MidwayRows(before: Notes, now: Notes, relpath: string, about: string, model: string, rest: seq<Key>)
    requires Midway(before, now, relpath, about, model, rest)
    ensures relpath in before && relpath in now && now[relpath].rows == before[relpath].rows
  {
    hide VectorsFrom, LeftToDo;
  }

  lemma MidwayWrote(before: Notes, now: Notes, relpath: string, about: string, model: string, rest: seq<Key>)
    requires Midway(before, now, relpath, about, model, rest)
    ensures WroteVectors(before, now, relpath, about, model)
  {
    hide VectorsFrom, LeftToDo, Embedded;
    assert now[relpath] == before[relpath].(vectors := now[relpath].vectors);
  }

  lemma OneWritten(n: Note, vs: Vectors, about: string, model: string, todo: seq<Key>, i: nat)
    requires i < |todo| && todo[i] in n.rows && VectorsFrom(n, vs, about, model) && LeftToDo(n, vs, about, model, todo[i..])
    ensures var vs' := vs[todo[i] := Wanted(about, n.rows[todo[i]], model)];
      VectorsFrom(n, vs', about, model) && LeftToDo(n, vs', about, model, todo[i + 1..])
  {
    hide Wanted;
    assert todo[i..] == [todo[i]] + todo[i + 1..];
  }

  lemma MidwayStep(before: Notes, now: Notes, relpath: string, about: string, model: string, todo: seq<Key>, i: nat)
    requires i < |todo| && Midway(before, now, relpath, about, model, todo[i..]) && todo[i] in before[relpath].rows
    ensures var v := Wanted(about, before[relpath].rows[todo[i]], model);
      var now' := now[relpath := WithVector(now[relpath], todo[i], v)];
      Midway(before, now', relpath, about, model, todo[i + 1..]) && WroteVectors(before, now', relpath, about, model)
  {
    var n, vs := before[relpath], now[relpath].vectors;
    var vs' := vs[todo[i] := Wanted(about, n.rows[todo[i]], model)];
    OneWritten(n, vs, about, model, todo, i);
    hide VectorsFrom, LeftToDo, Wanted;
    assert now[relpath].(vectors := vs') == n.(vectors := vs');
    MidwayWrote(before, now[relpath := n.(vectors := vs')], relpath, about, model, todo[i + 1..]);
  }

  lemma AllWritten(before: Notes, now: Notes, relpath: string, about: string, model: string)
    requires Midway(before, now, relpath, about, model, [])
    ensures var now' := now[relpath := now[relpath].(embedded := Current(model))];
      WroteVectors(before, now', relpath, about, model) && Embedded(now'[relpath], about, model)
  {
    var n := now[relpath].(embedded := Current(model));
    assert Embedded(n, about, model) by { hide VectorsFrom, Wanted; }
    hide VectorsFrom, LeftToDo, Wanted, Embedded;
    assert now[relpath] == before[relpath].(vectors := now[relpath].vectors);
  }

  // ----------------------------------------------- what keeps the markers sound

  /** What the methods do to the soundness of the markers: they keep it, however they
      end, if no stale note was marked as embedded, which then stays so. If one was,
      because the version of the chunker changed, they do when no note failed. */
  predicate KeepsUnless(before: Notes, after: Notes, describe: Describe, failures: nat) {
    && (AllSound(before, describe) && Settled(before) ==> AllSound(after, describe) && Settled(after))
    && (AllSound(before, describe) && failures == 0 ==> AllSound(after, describe))
  }

  lemma KeepsStart(notes: Notes, describe: Describe)
    ensures KeepsUnless(notes, notes, describe, 0)
  {
  }

  lemma KeepsOn(a: Notes, b: Notes, c: Notes, describe: Describe, f: nat, g: nat)
    requires f <= g && KeepsUnless(a, b, describe, f) && KeepsUnless(b, c, describe, g - f)
    ensures KeepsUnless(a, c, describe, g)
  {
    hide AllSound, Settled;
  }

  lemma OthersSound(before: Notes, after: Notes, describe: Describe, p: string)
    requires AllSound(before, describe) && p in after && Sound(after[p], describe(p, after[p].content))
    requires forall q <- after :: q != p ==> q in before && after[q] == before[q]
    ensures AllSound(after, describe)
    ensures Settled(before) && (Marked(after[p]) ==> !Stale(after[p])) ==> Settled(after)
  {
    hide Sound;
  }

  /** Rewriting the rows of a stale note keeps the markers sound when it is complete,
      or when the note is not marked. */
  lemma ReindexKeeps(before: Notes, after: Notes, describe: Describe, p: string, done: bool)
    requires WroteRows(before, after, p) && Stale(before[p])
    requires done ==> after[p] == Reindexed(before[p])
    ensures KeepsUnless(before, after, describe, if done then 0 else 1)
  {
    hide Fits, Derived;
    var about := describe(p, before[p].content);
    if AllSound(before, describe) && (Settled(before) || done) {
      if done && Sound(before[p], about) { ReindexedSound(before[p], about); }
      OthersSound(before, after, describe, p);
    }
  }

  lemma UnmarkedKeeps(before: Notes, after: Notes, describe: Describe, p: string)
    requires WroteRows(before, after, p) && !Marked(before[p])
    ensures KeepsUnless(before, after, describe, 0)
  {
    hide Fits;
    if AllSound(before, describe) { OthersSound(before, after, describe, p); }
  }

  lemma UpsertKeeps(before: Notes, after: Notes, describe: Describe, p: string)
    requires after == before || (p in after && !Marked(after[p]) && after == before[p := after[p]])
    ensures KeepsUnless(before, after, describe, 0)
  {
    hide Fits;
    if after != before && AllSound(before, describe) { OthersSound(before, after, describe, p); }
  }

  lemma TouchKeeps(before: Notes, after: Notes, describe: Describe, p: string)
    requires after.Keys == before.Keys && forall q <- after :: q != p ==> after[q] == before[q]
    requires p in after ==> after[p] == before[p].(mtime := after[p].mtime, size := after[p].size)
    ensures KeepsUnless(before, after, describe, 0)
  {
    if AllSound(before, describe) && p in after {
      assert Sound(before[p], describe(p, before[p].content));
      OthersSound(before, after, describe, p);
    }
  }

  predicate OnlyEmbeds(before: Notes, after: Notes, p: string) {
    && after.Keys == before.Keys && p in before && (forall q <- after :: q != p ==> after[q] == before[q])
    && after[p] == before[p].(embedded := after[p].embedded, vectors := after[p].vectors)
  }

  lemma VectorsSound(n: Note, n': Note, about: string, model: string)
    requires Sound(n, about) && n'.rows == n.rows && VectorsFrom(n, n'.vectors, about, model)
    requires n'.embedded == n.embedded || (n'.embedded == Current(model) && Embedded(n', about, model))
    ensures Sound(n', about)
  {
    hide Input;
  }

  /** Embedding a note with current chunks keeps all markers sound. */
  lemma VectorsKeep(before: Notes, after: Notes, describe: Describe, p: string, model: string)
    requires p in before && !Stale(before[p]) && WroteVectors(before, after, p, describe(p, before[p].content), model)
    ensures KeepsUnless(before, after, describe, 0) && OnlyEmbeds(before, after, p)
  {
    var n, n', about := before[p], after[p], describe(p, before[p].content);
    if AllSound(before, describe) {
      assert Sound(n, about);
      VectorsSound(n, n', about, model);
      forall q <- after ensures Sound(after[q], describe(q, after[q].content)) {
        assert Sound(before[q], describe(q, before[q].content));
      }
    }
  }

  lemma SameRowsStart(notes: Notes)
    ensures SameRows(notes, notes)
  {
  }

  lemma StillEmbedded(first: Notes, before: Notes, after: Notes, done: seq<string>, p: string, model: string)
    requires SameRows(first, before) && OnlyEmbeds(before, after, p)
    ensures SameRows(first, after) && p in after
    ensures (forall q <- done :: q in before ==> !Needs(before[q], model))
        ==> forall q <- done :: q in after ==> q == p || !Needs(after[q], model)
  {
    hide Needs;
  }

  /** Only this note may differ, and its content is the same. */
  predicate SameText(before: Notes, after: Notes, p: string) {
    && after.Keys == before.Keys && p in before && after[p].content == before[p].content
    && forall q <- after :: q != p ==> after[q] == before[q]
  }

  lemma RowsText(before: Notes, after: Notes, p: string)
    requires WroteRows(before, after, p)
    ensures SameText(before, after, p) && p in after
  {
  }

  lemma VectorsText(start: Notes, before: Notes, after: Notes, p: string, about: string, model: string)
    requires SameText(start, before, p) && WroteVectors(before, after, p, about, model)
    ensures SameText(start, after, p) && p in after && Stale(after[p]) == Stale(before[p])
  {
    hide VectorsFrom, Embedded;
  }

  // ------------------------------------------------------ pages of the backfill

  predicate IsNextStale(notes: Notes, after: nat, p: string) {
    && p in notes && Stale(notes[p]) && notes[p].id > after
    && forall q <- notes :: Stale(notes[q]) && notes[q].id > after ==> notes[p].id <= notes[q].id
  }

  /** The stale notes with ids above `after` and up to `last`, by id. */
  predicate IsPart(notes: Notes, after: nat, last: nat, page: seq<string>) {
    && after <= last
    && (forall i :: 0 <= i < |page| ==> page[i] in notes && Stale(notes[page[i]]) && after < notes[page[i]].id <= last)
    && (forall i, j :: 0 <= i < j < |page| ==> notes[page[i]].id < notes[page[j]].id)
    && (forall p <- notes :: Stale(notes[p]) && after < notes[p].id <= last ==> p in page)
    && (if page == [] then last == after else last == notes[page[|page| - 1]].id)
  }

  predicate IsPage(notes: Notes, after: nat, limit: nat, page: seq<string>) {
    && |page| <= limit
    && IsPart(notes, after, if page == [] then after else if page[|page| - 1] in notes then notes[page[|page| - 1]].id else after, page)
    && (page == [] && limit > 0 ==> forall p <- notes :: !(Stale(notes[p]) && notes[p].id > after))
  }

  lemma NotYet(notes: Notes, page: seq<string>, i: nat)
    requires i < |page| && forall j :: 0 <= j < |page| ==> page[j] in notes
    requires forall j, k :: 0 <= j < k < |page| ==> notes[page[j]].id < notes[page[k]].id
    ensures page[i] !in page[..i]
  {
  }

  /** Between two neighbours on a page there is no stale note. */
  lemma PageGap(notes: Notes, after: nat, page: seq<string>, i: nat)
    requires i < |page| && IsPage(notes, after, BACKFILL_PAGE_SIZE, page)
    ensures var begin := if i == 0 then after else notes[page[i - 1]].id;
      forall q <- notes :: Stale(notes[q]) && begin < notes[q].id <= notes[page[i]].id ==> q == page[i]
  {
    var begin := if i == 0 then after else notes[page[i - 1]].id;
    forall q <- notes | Stale(notes[q]) && begin < notes[q].id <= notes[page[i]].id ensures q == page[i] {
      assert notes[page[i]].id <= notes[page[|page| - 1]].id;
      var j :| 0 <= j < |page| && page[j] == q;
    }
  }

  /** The first i notes of the page have been done; `last` is the id of the last. */
  predicate OnPage(first: Notes, now: Notes, page: seq<string>, i: nat, after: nat, last: nat) {
    && i <= |page| && SameSources(first, now)
    && (forall j :: 0 <= j < |page| ==> page[j] in first)
    && last == (if i == 0 then after else first[page[i - 1]].id)
    && (forall q <- now :: q !in page[..i] ==> now[q] == first[q])
  }

  lemma PageStart(notes: Notes, page: seq<string>, after: nat)
    requires IsPage(notes, after, BACKFILL_PAGE_SIZE, page)
    ensures OnPage(notes, notes, page, 0, after, after)
  {
  }

  lemma PageNext(first: Notes, now: Notes, page: seq<string>, i: nat, after: nat, last: nat)
    requires i < |page| && IsPage(first, after, BACKFILL_PAGE_SIZE, page) && OnPage(first, now, page, i, after, last)
    ensures page[i] in now && Stale(now[page[i]]) && now[page[i]].id > last
  {
    NotYet(first, page, i);
    assert now[page[i]] == first[page[i]];
  }

  lemma PageGrows(first: Notes, before: Notes, now: Notes, page: seq<string>, i: nat, after: nat, last: nat)
    requires i < |page| && OnPage(first, before, page, i, after, last) && WroteRows(before, now, page[i])
    ensures page[i] in now && now[page[i]].id == first[page[i]].id && OnPage(first, now, page, i + 1, after, now[page[i]].id)
  {
    assert page[..i + 1] == page[..i] + [page[i]];
  }

  lemma NotOnPage(notes: Notes, page: seq<string>, i: nat, after: nat, last: nat, q: string)
    requires i < |page| && IsPage(notes, after, BACKFILL_PAGE_SIZE, page) && last == if i == 0 then after else notes[page[i - 1]].id
    requires q in notes && notes[q].id > last
    ensures q !in page[..i]
  {
  }

  /** A note between two neighbours is current, and was not worked on. */
  lemma PageSkips(first: Notes, page: seq<string>, i: nat, after: nat, last: nat, q: string)
    requires i < |page| && IsPage(first, after, BACKFILL_PAGE_SIZE, page) && last == if i == 0 then after else first[page[i - 1]].id
    requires q in first && first[q].id <= first[page[i]].id
    ensures q == page[i] || first[q].id <= last || (!Stale(first[q]) && q !in page[..i])
  {
    if q != page[i] && first[q].id > last {
      PageGap(first, after, page, i);
      NotOnPage(first, page, i, after, last, q);
    }
  }

  predicate NoneStaleUpTo(notes: Notes, last: nat) {
    forall p <- notes :: notes[p].id <= last ==> !Stale(notes[p])
  }

  lemma NotStaleHere(first: Notes, before: Notes, now: Notes, page: seq<string>, i: nat, after: nat, last: nat, q: string)
    requires i < |page| && IsPage(first, after, BACKFILL_PAGE_SIZE, page) && OnPage(first, before, page, i, after, last)
    requires WroteRows(before, now, page[i]) && NoneStaleUpTo(before, last) && !Stale(now[page[i]])
    requires page[i] in first && q in now && now[q].id <= first[page[i]].id
    ensures !Stale(now[q])
  {
    hide Stale, IsPage;
    PageSkips(first, page, i, after, last, q);
  }

  /** Note i of the page is done: none up to it is stale, if none was before. */
  lemma PageStep(first: Notes, before: Notes, now: Notes, page: seq<string>, i: nat, after: nat, last: nat)
    requires i < |page| && IsPage(first, after, BACKFILL_PAGE_SIZE, page) && OnPage(first, before, page, i, after, last)
    requires WroteRows(before, now, page[i])
    ensures page[i] in now && now[page[i]].id == first[page[i]].id && OnPage(first, now, page, i + 1, after, now[page[i]].id)
    ensures NoneStaleUpTo(before, last) && !Stale(now[page[i]]) ==> NoneStaleUpTo(now, now[page[i]].id)
  {
    PageGrows(first, before, now, page, i, after, last);
    if NoneStaleUpTo(before, last) && !Stale(now[page[i]]) {
      forall q <- now | now[q].id <= first[page[i]].id ensures !Stale(now[q]) {
        NotStaleHere(first, before, now, page, i, after, last, q);
      }
    }
  }

  lemma PageEnd(first: Notes, now: Notes, page: seq<string>, after: nat, last: nat, nextId: nat)
    requires page != [] && IsPage(first, after, BACKFILL_PAGE_SIZE, page) && OnPage(first, now, page, |page|, after, last)
    requires Consistent(now, nextId)
    ensures SameSources(first, now) && after < last < nextId
  {
  }

  // --------------------------------------------------------------- a whole pass

  /** A file of the vault; its time is in nanoseconds. */
  datatype File = File(mtime: int, size: int, content: string)

  function Micros(nanos: int): int {
    nanos / 1000
  }

  /** The metadata in which a row and a file are compared. */
  predicate SameMeta(n: Note, f: File) {
    n.mtime == Micros(f.mtime) && n.size == f.size
  }

  /** Times agree when the file's, in nanoseconds, begins with the row's microseconds. */
  lemma TimesAgree(n: Note, f: File)
    ensures SameMeta(n, f) <==> n.size == f.size && 1000 * n.mtime <= f.mtime < 1000 * n.mtime + 1000
  {
  }

  /** No note changed, and only notes of these paths are gone. */
  predicate Purged(before: Notes, after: Notes, paths: set<string>) {
    && after.Keys <= before.Keys && (forall p <- after :: after[p] == before[p])
    && (forall p <- before :: p !in paths ==> p in after)
  }

  lemma PurgeKeeps(before: Notes, after: Notes, describe: Describe, paths: set<string>)
    requires Purged(before, after, paths)
    ensures KeepsUnless(before, after, describe, 0)
  {
    hide Sound;
  }

  /** The rows that no listed file has. */
  function Unlisted(known: Notes, files: seq<string>): Notes {
    map p <- known | p !in files :: known[p]
  }

  lemma ListedStay(first: Notes, synced: Notes, filled: Notes, last: Notes, files: seq<string>)
    requires OnlyPaths(first, synced, files) && SameSources(synced, filled)
    requires Purged(filled, last, Unlisted(first, files).Keys)
    ensures forall p <- files :: p in first ==> p in last
  {
  }

  lemma PurgedAll(first: Notes, synced: Notes, filled: Notes, last: Notes, files: seq<string>)
    requires OnlyPaths(first, synced, files) && SameSources(synced, filled)
    requires Purged(filled, last, Unlisted(first, files).Keys)
    ensures files == [] && (first == map[] || last == filled - Unlisted(first, files).Keys) ==> last == map[]
  {
    if files == [] { assert Unlisted(first, files).Keys == first.Keys && filled.Keys == first.Keys; }
  }

  lemma StillTheSame(synced: Notes, chunked: Notes, filled: Notes)
    requires SameSources(synced, chunked) && (filled == chunked || SameRows(chunked, filled))
    ensures SameSources(synced, filled)
    ensures (forall p <- chunked :: !Stale(chunked[p])) ==> forall p <- filled :: !Stale(filled[p])
  {
  }

  lemma NoneStaleStays(before: Notes, after: Notes, paths: set<string>)
    requires Purged(before, after, paths)
    ensures (forall p <- before :: !Stale(before[p])) ==> forall p <- after :: !Stale(after[p])
  {
    hide Stale;
  }

  predicate IsListing(files: seq<string>) {
    forall i, j :: 0 <= i < j < |files| ==> files[i] != files[j]
  }

  /** Only the note of one path may differ, and it is not deleted. */
  predicate OnlyPath(before: Notes, after: Notes, relpath: string) {
    && (forall p <- before :: p in after && (p != relpath ==> after[p] == before[p]))
    && (forall p <- after :: p in before || p == relpath)
  }

  predicate OnlyPaths(before: Notes, after: Notes, paths: seq<string>) {
    && (forall p <- before :: p in after && (p !in paths ==> after[p] == before[p]))
    && (forall p <- after :: p in before || p in paths)
  }

  /** The row has the file's content, or was skipped because size and time agree. */
  predicate Synced(before: Notes, after: Notes, disk: map<string, File>, force: bool, p: string) {
    && p in after && p in disk
    && (after[p].content == disk[p].content
        || (!force && p in before && SameMeta(before[p], disk[p]) && after[p].content == before[p].content))
  }

  /** A file whose size and time are those of its row has its content. */
  predicate Trusted(notes: Notes, disk: map<string, File>) {
    forall p <- notes :: p in disk && SameMeta(notes[p], disk[p]) ==> notes[p].content == disk[p].content
  }

  /** The table holds exactly the listed paths, with their files' contents. */
  ghost predicate Reconciled(notes: Notes, disk: map<string, File>, files: seq<string>) {
    && (forall p :: p in notes <==> p in files)
    && (forall p <- notes :: p in disk && notes[p].content == disk[p].content)
  }

  lemma HashesAgree(notes: Notes, nextId: nat, p: string, content: string)
    requires Consistent(notes, nextId) && p in notes && notes[p].hash == NoteMarkers.Digest(content)
    ensures notes[p].content == content
  {
    assert NoteOk(notes[p]);
    NoteMarkers.DigestInjective(notes[p].content, content);
  }

  lemma KnownLess(known: Notes, files: seq<string>, i: nat)
    requires i < |files|
    ensures Unlisted(known, files[..i]) - {files[i]} == Unlisted(known, files[..i + 1])
  {
    assert files[..i + 1] == files[..i] + [files[i]];
  }

  lemma OneMorePath(first: Notes, before: Notes, after: Notes, files: seq<string>, i: nat)
    requires i < |files| && OnlyPaths(first, before, files[..i]) && OnlyPath(before, after, files[i])
    ensures OnlyPaths(first, after, files[..i + 1])
  {
    assert files[..i + 1] == files[..i] + [files[i]];
  }

  lemma SyncedMore(first: Notes, before: Notes, after: Notes, disk: map<string, File>, force: bool, files: seq<string>, i: nat)
    requires i < |files| && IsListing(files) && OnlyPaths(first, before, files[..i]) && OnlyPath(before, after, files[i])
    requires forall p <- files[..i] :: Synced(first, before, disk, force, p)
    requires Synced(before, after, disk, force, files[i])
    ensures forall p <- files[..i + 1] :: Synced(first, after, disk, force, p)
  {
    assert files[..i + 1] == files[..i] + [files[i]];
    assert files[i] !in files[..i];
    forall p <- files[..i + 1] ensures Synced(first, after, disk, force, p) {
      if p != files[i] { assert p in files[..i] && after[p] == before[p]; }
    }
  }

  lemma Reconciling(first: Notes, synced: Notes, filled: Notes, last: Notes, disk: map<string, File>, files: seq<string>, force: bool)
    requires OnlyPaths(first, synced, files) && SameSources(synced, filled)
    requires last == filled - Unlisted(first, files).Keys
    requires forall p <- files :: Synced(first, synced, disk, force, p)
    requires force || Trusted(first, disk)
    ensures Reconciled(last, disk, files)
  {
    forall p ensures p in last <==> p in files {
      if p in files { assert Synced(first, synced, disk, force, p); }
    }
    forall p <- last ensures p in disk && last[p].content == disk[p].content {
      assert Synced(first, synced, disk, force, p);
    }
  }
}
