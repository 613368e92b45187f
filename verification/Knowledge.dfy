/** Knowledge documents, their saved versions and the chunks they are indexed by. */
module Knowledge {
  import opened Wrappers
  import opened Texts

  const CHUNK_SIZE := 800

  /** content.replace(/\r\n/g, "\n") */
  function UnixLines(s: string): string {
    if |s| >= 2 && s[0] == '\r' && s[1] == '\n' then ['\n'] + UnixLines(s[2..])
    else if s == "" then ""
    else [s[0]] + UnixLines(s[1..])
  }

  lemma InFront(head: string, rest: string, tail: string)
    ensures head + (rest + ['\n'] + tail) == (head + rest) + ['\n'] + tail
  {
  }

  /** Every "\r\n" becomes a newline. */
  lemma {:induction false} UnixLinesReplacesPairs(a: string, b: string)
    ensures UnixLines(a + ['\r', '\n'] + b) == UnixLines(a) + ['\n'] + UnixLines(b)
  {
    var whole := a + ['\r', '\n'] + b;
    if a == "" {
      assert whole[2..] == b;
    } else {
      var isPair := |a| >= 2 && a[0] == '\r' && a[1] == '\n';
      var skip, head := if isPair then 2 else 1, if isPair then ['\n'] else [a[0]];
      UnixLinesReplacesPairs(a[skip..], b);
      assert whole[skip..] == a[skip..] + ['\r', '\n'] + b;
      assert UnixLines(a) == head + UnixLines(a[skip..]) && UnixLines(whole) == head + UnixLines(whole[skip..]);
      InFront(head, UnixLines(a[skip..]), UnixLines(b));
    }
  }

  predicate HasPair(s: string) {
    exists i :: 0 <= i < |s| - 1 && IsPair(s, i)
  }

  predicate IsPair(s: string, i: nat) {
    i + 1 < |s| && s[i] == '\r' && s[i + 1] == '\n'
  }

  /** Nothing else changes. */
  lemma {:induction false} UnixLinesKeepsTheRest(s: string)
    requires !HasPair(s)
    ensures UnixLines(s) == s
  {
    if s != "" {
      assert !IsPair(s, 0);
      forall i | 0 <= i < |s[1..]| - 1
        ensures !IsPair(s[1..], i)
      {
        assert !IsPair(s, i + 1);
      }
      UnixLinesKeepsTheRest(s[1..]);
    }
  }

  function Normalize(content: string): string {
    Trim(UnixLines(content))
  }

  /** A text is normalised by making its lines end in newlines and taking the space off both ends. */
  lemma NormalizeTrimsLines(content: string) returns (i: nat, j: nat)
    ensures var lines := UnixLines(content);
            && i <= j <= |lines| && Normalize(content) == lines[i..j] && OnlySpace(lines[..i]) && OnlySpace(lines[j..])
            && (i < j ==> !IsSpace(lines[i]) && !IsSpace(lines[j - 1]))
  {
    i, j := TrimIsMiddle(UnixLines(content));
    assert i < j ==> Normalize(content)[0] == UnixLines(content)[i];
  }

  function Chunks(text: string, size: nat): seq<string>
    requires size >= 1
  {
    if |text| <= size then (if text == "" then [] else [text])
    else [text[..size]] + Chunks(text[size..], size)
  }

  function Join(parts: seq<string>): string {
    if parts == [] then "" else parts[0] + Join(parts[1..])
  }

  lemma {:induction false} JoinAppend(parts: seq<string>, part: string)
    ensures Join(parts + [part]) == Join(parts) + part
  {
    if parts == [] {
      assert parts + [part] == [part];
      assert [part][1..] == [];
      assert Join([part]) == part + Join([]);
    } else {
      assert (parts + [part])[1..] == parts[1..] + [part];
      JoinAppend(parts[1..], part);
    }
  }

  /** `parts` cut `text` into pieces of exactly `size`, the last one possibly shorter but not empty. */
  ghost predicate IsChunking(parts: seq<string>, text: string, size: nat) {
    && Join(parts) == text
    && (forall i :: 0 <= i < |parts| - 1 ==> |parts[i]| == size)
    && (parts != [] ==> 1 <= |parts[|parts| - 1]| <= size)
  }

  /** The while loop of chunkText. */
  method ChunkText(content: string, size: nat) returns (parts: seq<string>)
    requires size >= 1
    ensures IsChunking(parts, Normalize(content), size)
  {
    parts := [];
    var normalized := Normalize(content);
    if normalized == "" {
      return;
    }
    var i := 0;
    while i < |normalized|
      invariant 0 <= i
      invariant i < |normalized| ==> AreWhole(parts, normalized[..i], size)
      invariant i >= |normalized| ==> IsChunking(parts, normalized, size)
    {
      var end := if i + size <= |normalized| then i + size else |normalized|;
      NextChunk(parts, normalized, i, end, size);
      parts := parts + [normalized[i..end]];
      i := i + size;
    }
  }

  /** `parts` cut `text` into pieces of exactly `size`. */
  ghost predicate AreWhole(parts: seq<string>, text: string, size: nat) {
    Join(parts) == text && forall i :: 0 <= i < |parts| ==> |parts[i]| == size
  }

  lemma NextChunk(parts: seq<string>, text: string, i: nat, end: nat, size: nat)
    requires i < end <= |text| && AreWhole(parts, text[..i], size)
    requires end == if i + size <= |text| then i + size else |text|
    ensures end == i + size < |text| ==> AreWhole(parts + [text[i..end]], text[..end], size)
    ensures i + size >= |text| ==> IsChunking(parts + [text[i..end]], text, size)
  {
    JoinAppend(parts, text[i..end]);
    assert text[..i] + text[i..end] == text[..end];
    assert text[..|text|] == text;
  }

  /** A text has only one such chunking: the method's contract fixes its result. */
  lemma {:induction false} ChunkingIsUnique(parts: seq<string>, text: string, size: nat)
    requires size >= 1 && IsChunking(parts, text, size)
    ensures parts == Chunks(text, size)
    decreases |parts|
  {
    if parts != [] {
      var rest := parts[1..];
      assert text == parts[0] + Join(rest);
      if rest == [] {
        assert parts == [parts[0]] && text == parts[0];
      } else {
        assert forall i :: 0 <= i < |rest| - 1 ==> |rest[i]| == |parts[i + 1]| == size;
        assert rest[|rest| - 1] == parts[|parts| - 1];
        ChunkingIsUnique(rest, Join(rest), size);
        assert Join(rest) != "" by {
          assert Join(rest) == rest[0] + Join(rest[1..]);
        }
        assert text[size..] == Join(rest) && text[..size] == parts[0];
      }
    }
  }

  datatype Status = Active | Inactive | Archived

  datatype Saved = Saved(version: int, content: string)

  datatype Document = Document(
    organisationId: string, title: string, category: string, content: string, tags: seq<string>, status: Status,
    version: int, saved: seq<Saved>, chunks: seq<string>)

  /** Documents are never deleted; a document's id is its position. */
  type Store = seq<Document>

  function OrElse<T>(value: Option<T>, current: T): T {
    if value.Some? then value.value else current
  }

  datatype Edit = Edit(
    title: Option<string>, category: Option<string>, content: Option<string>, tags: Option<seq<string>>,
    status: Option<Status>)

  function UpdateDocument(d: Document, e: Edit): Document {
    var edited := d.(title := OrElse(e.title, d.title), category := OrElse(e.category, d.category),
                     tags := OrElse(e.tags, d.tags), status := OrElse(e.status, d.status));
    if e.content.Some? && e.content.value != d.content then
      edited.(content := e.content.value, version := d.version + 1,
              saved := d.saved + [Saved(d.version, d.content)],
              chunks := Chunks(Normalize(e.content.value), CHUNK_SIZE))
    else edited
  }

  function Update(store: Store, organisation: string, id: nat, e: Edit): (Store, Option<nat>) {
    if id >= |store| || store[id].organisationId != organisation then (store, None)
    else (store[id := UpdateDocument(store[id], e)], Some(id))
  }

  function FindByTitle(store: Store, organisation: string, title: string): Option<nat> {
    if store == [] then None
    else
      var earlier := FindByTitle(store[..|store| - 1], organisation, title);
      var last := store[|store| - 1];
      if earlier.Some? then earlier
      else if last.organisationId == organisation && last.title == title then Some(|store| - 1) else None
  }

  function Upsert(store: Store, organisation: string, title: string, category: string, content: string,
                  tags: Option<seq<string>>): (Store, Option<nat>)
  {
    var existing := FindByTitle(store, organisation, title);
    if existing.Some? then
      Update(store, organisation, existing.value, Edit(Some(title), Some(category), Some(content), tags, Some(Active)))
    else
      (store + [Document(organisation, title, category, content, OrElse(tags, []), Active, 1, [],
                         Chunks(Normalize(content), CHUNK_SIZE))],
       Some(|store|))
  }

  function Archive(store: Store, organisation: string, id: nat): (Store, Option<nat>) {
    if id >= |store| || store[id].organisationId != organisation then (store, None)
    else (store[id := store[id].(status := Archived)], Some(id))
  }

  class KnowledgeService {
    var documents: Store

    constructor ()
      ensures documents == []
    {
      documents := [];
    }

    method ReplaceChunks(id: nat, content: string)
      requires id < |documents|
      modifies this
      ensures documents == old(documents)[id := old(documents)[id].(chunks := Chunks(Normalize(content), CHUNK_SIZE))]
    {
      var chunks := ChunkText(content, CHUNK_SIZE);
      ChunkingIsUnique(chunks, Normalize(content), CHUNK_SIZE);
      documents := documents[id := documents[id].(chunks := [])];
      documents := documents[id := documents[id].(chunks := chunks)];
    }

    method UpdateKnowledgeDocument(organisation: string, id: nat, e: Edit) returns (result: Option<nat>)
      modifies this
      ensures (documents, result) == Update(old(documents), organisation, id, e)
    {
      if id >= |documents| || documents[id].organisationId != organisation {
        return None;
      }
      var existing := documents[id];
      var nextContent := OrElse(e.content, existing.content);
      var contentChanged := e.content.Some? && e.content.value != existing.content;
      var edited := existing.(title := OrElse(e.title, existing.title), category := OrElse(e.category, existing.category),
                              tags := OrElse(e.tags, existing.tags), status := OrElse(e.status, existing.status));
      if contentChanged {
        documents := documents[id := edited.(content := nextContent, version := existing.version + 1,
                                             saved := existing.saved + [Saved(existing.version, existing.content)])];
        ReplaceChunks(id, nextContent);
        assert documents == old(documents)[id := UpdateDocument(existing, e)];
      } else {
        documents := documents[id := edited];
      }
      return Some(id);
    }

    method UpsertKnowledgeDocument(organisation: string, title: string, category: string, content: string,
                                   tags: Option<seq<string>>)
      returns (result: Option<nat>)
      modifies this
      ensures (documents, result) == Upsert(old(documents), organisation, title, category, content, tags)
    {
      var existing := FindByTitle(documents, organisation, title);
      if existing.Some? {
        result := UpdateKnowledgeDocument(organisation, existing.value,
                                          Edit(Some(title), Some(category), Some(content), tags, Some(Active)));
        return;
      }
      var id := |documents|;
      documents := documents + [Document(organisation, title, category, content, OrElse(tags, []), Active, 1, [], [])];
      ReplaceChunks(id, content);
      assert documents == old(documents) + [documents[id]];
      return Some(id);
    }

    method ArchiveKnowledgeDocument(organisation: string, id: nat) returns (result: Option<nat>)
      modifies this
      ensures (documents, result) == Archive(old(documents), organisation, id)
    {
      if id >= |documents| || documents[id].organisationId != organisation {
        return None;
      }
      documents := documents[id := documents[id].(status := Archived)];
      return Some(id);
    }
  }

  datatype Write =
    | UpsertWrite(organisationId: string, title: string, category: string, content: string, tags: Option<seq<string>>)
    | UpdateWrite(organisationId: string, id: nat, edit: Edit)
    | ArchiveWrite(organisationId: string, id: nat)

  function Apply(store: Store, write: Write): (Store, Option<nat>) {
    match write
    case UpsertWrite(o, title, category, content, tags) => Upsert(store, o, title, category, content, tags)
    case UpdateWrite(o, id, edit) => Update(store, o, id, edit)
    case ArchiveWrite(o, id) => Archive(store, o, id)
  }

  /** The content a write carries, if it carries one. */
  function ContentOf(write: Write): Option<string> {
    match write
    case UpsertWrite(_, _, _, content, _) => Some(content)
    case UpdateWrite(_, _, edit) => edit.content
    case ArchiveWrite(_, _) => None
  }

  predicate IsTitled(d: Document, organisation: string, title: string) {
    d.organisationId == organisation && d.title == title
  }

  /** The first document of that organisation and title; the number of documents if there is none. */
  function FirstTitled(store: Store, organisation: string, title: string): (n: nat)
    ensures n <= |store| && (n < |store| ==> IsTitled(store[n], organisation, title))
    ensures forall i :: 0 <= i < n ==> !IsTitled(store[i], organisation, title)
  {
    if store == [] then 0
    else if IsTitled(store[0], organisation, title) then 0
    else
      assert forall i :: 0 < i < |store| ==> store[i] == store[1..][i - 1];
      FirstTitled(store[1..], organisation, title) + 1
  }

  /** The position of the document a write is about: the one named, or the one with the title, or a new one. */
  function Addressed(store: Store, write: Write): Option<nat> {
    match write
    case UpsertWrite(organisation, title, _, _, _) => Some(FirstTitled(store, organisation, title))
    case UpdateWrite(organisation, id, _) =>
      if id < |store| && store[id].organisationId == organisation then Some(id) else None
    case ArchiveWrite(organisation, id) =>
      if id < |store| && store[id].organisationId == organisation then Some(id) else None
  }

  /** The store after some writes, and for each document every content written to it so far. */
  datatype Trace = Trace(store: Store, written: seq<seq<string>>)

  function Next(t: Trace, write: Write): Trace {
    var target, content := Addressed(t.store, write), ContentOf(write);
    Trace(Apply(t.store, write).0,
          if target.None? || content.None? then t.written
          else if target.value < |t.written|
          then t.written[target.value := t.written[target.value] + [content.value]]
          else t.written + [[content.value]])
  }

  function Run(writes: seq<Write>): Trace {
    if writes == [] then Trace([], []) else Next(Run(writes[..|writes| - 1]), writes[|writes| - 1])
  }

  /** Consecutive repetitions removed. */
  function Successive(contents: seq<string>): seq<string> {
    if contents == [] then []
    else
      var earlier := Successive(contents[..|contents| - 1]);
      var last := contents[|contents| - 1];
      if earlier != [] && earlier[|earlier| - 1] == last then earlier else earlier + [last]
  }

  function SavedContents(saved: seq<Saved>): seq<string> {
    seq(|saved|, i requires 0 <= i < |saved| => saved[i].content)
  }

  ghost predicate DocumentSound(d: Document, written: seq<string>) {
    && d.version == |d.saved| + 1
    && (forall i :: 0 <= i < |d.saved| ==> d.saved[i].version == i + 1)
    && SavedContents(d.saved) + [d.content] == Successive(written)
    && IsChunking(d.chunks, Normalize(d.content), 800)
  }

  ghost predicate Sound(t: Trace) {
    && |t.written| == |t.store|
    && forall id :: 0 <= id < |t.store| ==> DocumentSound(t.store[id], t.written[id])
  }

  lemma {:induction false} ChunksAreChunking(text: string, size: nat)
    requires size >= 1
    ensures IsChunking(Chunks(text, size), text, size)
    decreases |text|
  {
    if |text| <= size {
      if text != "" {
        assert [text][1..] == [];
      }
    } else {
      ChunksAreChunking(text[size..], size);
      var parts := Chunks(text, size);
      assert parts[1..] == Chunks(text[size..], size);
      assert text == text[..size] + text[size..];
      assert forall i :: 1 <= i < |parts| ==> parts[i] == parts[1..][i - 1];
      assert parts[1..] != [] by {
        assert Join([]) == "";
      }
    }
  }

  lemma UpdateKeepsDocument(d: Document, e: Edit, written: seq<string>)
    requires DocumentSound(d, written)
    ensures DocumentSound(UpdateDocument(d, e), if e.content.Some? then written + [e.content.value] else written)
  {
    var after := UpdateDocument(d, e);
    if e.content.Some? {
      assert (written + [e.content.value])[..|written|] == written;
      var earlier := SavedContents(d.saved) + [d.content];
      assert earlier[|earlier| - 1] == d.content;
      if e.content.value != d.content {
        ChunksAreChunking(Normalize(e.content.value), CHUNK_SIZE);
        assert SavedContents(after.saved) == SavedContents(d.saved) + [d.content];
      }
    }
  }

  lemma {:induction false} FindByTitleFindsFirst(store: Store, organisation: string, title: string)
    ensures
      var first := FirstTitled(store, organisation, title);
      FindByTitle(store, organisation, title) == if first < |store| then Some(first) else None
  {
    if store != [] {
      var init, last := store[..|store| - 1], store[|store| - 1];
      FindByTitleFindsFirst(init, organisation, title);
      var first, earlier := FirstTitled(store, organisation, title), FirstTitled(init, organisation, title);
      assert earlier < |init| ==> IsTitled(store[earlier], organisation, title);
      if first < |init| {
        assert IsTitled(init[first], organisation, title);
      }
    }
  }

  /** The document after an upsert: the given fields, and what follows from whether the content changed. */
  ghost predicate IsUpserted(before: Document, after: Document, title: string, category: string, content: string,
                             tags: Option<seq<string>>)
  {
    && after.organisationId == before.organisationId && after.title == title && after.category == category
    && after.content == content && after.status == Active
    && (tags.Some? ==> after.tags == tags.value) && (tags.None? ==> after.tags == before.tags)
    && (content == before.content ==>
          after.version == before.version && after.saved == before.saved && after.chunks == before.chunks)
    && (content != before.content ==>
          && after.version == before.version + 1 && after.saved == before.saved + [Saved(before.version, before.content)]
          && IsChunking(after.chunks, Normalize(content), 800))
  }

  /** A new document with the given fields. */
  ghost predicate IsNew(d: Document, organisation: string, title: string, category: string, content: string,
                        tags: Option<seq<string>>)
  {
    && d.organisationId == organisation && d.title == title && d.category == category && d.content == content
    && d.status == Active && d.version == 1 && d.saved == [] && (tags.Some? ==> d.tags == tags.value)
    && (tags.None? ==> d.tags == []) && IsChunking(d.chunks, Normalize(content), 800)
  }

  /**
   * An upsert writes the organisation's document of that title: if it has none, a new one with
   * exactly the given fields is added and all others stay; if it has one, the first is updated and
   * all others stay. The answer names that document.
   */
  lemma UpsertWritesTitle(store: Store, organisation: string, title: string, category: string, content: string,
                          tags: Option<seq<string>>)
    ensures
      var (after, answer) := Upsert(store, organisation, title, category, content, tags);
      if exists i :: 0 <= i < |store| && IsTitled(store[i], organisation, title) then
        && answer.Some? && answer.value < |store| && IsTitled(store[answer.value], organisation, title)
        && |after| == |store| && IsUpserted(store[answer.value], after[answer.value], title, category, content, tags)
        && (forall i :: 0 <= i < |store| && i != answer.value ==> after[i] == store[i])
      else
        && answer == Some(|store|) && |after| == |store| + 1 && after[..|store|] == store
        && IsNew(after[|store|], organisation, title, category, content, tags)
  {
    FindByTitleFindsFirst(store, organisation, title);
    ChunksAreChunking(Normalize(content), CHUNK_SIZE);
  }

  /** An update writes only the given fields of the one document named. */
  lemma UpdateWritesGivenFields(store: Store, organisation: string, id: nat, e: Edit)
    ensures
      var (after, answer) := Update(store, organisation, id, e);
      if id < |store| && store[id].organisationId == organisation then
        var d, u := store[id], after[id];
        && answer == Some(id) && |after| == |store| && (forall i :: 0 <= i < |store| && i != id ==> after[i] == store[i])
        && u.organisationId == organisation
        && u.title == (if e.title.Some? then e.title.value else d.title)
        && u.category == (if e.category.Some? then e.category.value else d.category)
        && u.tags == (if e.tags.Some? then e.tags.value else d.tags)
        && u.status == (if e.status.Some? then e.status.value else d.status)
        && u.content == (if e.content.Some? then e.content.value else d.content)
        && (u.content == d.content ==> u.version == d.version && u.saved == d.saved && u.chunks == d.chunks)
        && (u.content != d.content ==>
              && u.version == d.version + 1 && u.saved == d.saved + [Saved(d.version, d.content)]
              && IsChunking(u.chunks, Normalize(u.content), 800))
      else after == store && answer == None
  {
    if e.content.Some? {
      ChunksAreChunking(Normalize(e.content.value), CHUNK_SIZE);
    }
  }

  /** Archiving writes the status of the one document named, whose title, content, version and chunks stay. */
  lemma ArchiveKeepsContent(store: Store, organisation: string, id: nat)
    ensures
      var (after, answer) := Archive(store, organisation, id);
      if id < |store| && store[id].organisationId == organisation then
        var d, a := store[id], after[id];
        && answer == Some(id) && |after| == |store| && (forall i :: 0 <= i < |store| && i != id ==> after[i] == store[i])
        && a == Document(organisation, d.title, d.category, d.content, d.tags, Archived, d.version, d.saved, d.chunks)
      else after == store && answer == None
  {
  }

  lemma ReplaceKeepsSound(t: Trace, id: nat, d: Document, written: seq<string>)
    requires Sound(t) && id < |t.store| && DocumentSound(d, written)
    ensures Sound(Trace(t.store[id := d], t.written[id := written]))
  {
  }

  lemma UpdateKeepsSound(t: Trace, id: nat, e: Edit)
    requires Sound(t) && id < |t.store|
    ensures
      var written := if e.content.Some? then t.written[id := t.written[id] + [e.content.value]] else t.written;
      Sound(Trace(t.store[id := UpdateDocument(t.store[id], e)], written))
  {
    var contents := if e.content.Some? then t.written[id] + [e.content.value] else t.written[id];
    UpdateKeepsDocument(t.store[id], e, t.written[id]);
    ReplaceKeepsSound(t, id, UpdateDocument(t.store[id], e), contents);
    if e.content.None? {
      assert t.written[id := t.written[id]] == t.written;
    }
  }

  lemma NewDocumentIsSound(d: Document)
    requires d.version == 1 && d.saved == [] && d.chunks == Chunks(Normalize(d.content), CHUNK_SIZE)
    ensures DocumentSound(d, [d.content])
  {
    ChunksAreChunking(Normalize(d.content), CHUNK_SIZE);
    assert [d.content][..0] == [];
    assert Successive([d.content]) == [d.content];
  }

  lemma CreateKeepsSound(t: Trace, d: Document)
    requires Sound(t)
    requires d.version == 1 && d.saved == [] && d.chunks == Chunks(Normalize(d.content), CHUNK_SIZE)
    ensures Sound(Trace(t.store + [d], t.written + [[d.content]]))
  {
    NewDocumentIsSound(d);
  }

  lemma UpsertKeepsSound(t: Trace, write: Write)
    requires Sound(t) && write.UpsertWrite?
    ensures Sound(Next(t, write))
  {
    var existing := FindByTitle(t.store, write.organisationId, write.title);
    FindByTitleFindsFirst(t.store, write.organisationId, write.title);
    if existing.Some? {
      var e := Edit(Some(write.title), Some(write.category), Some(write.content), write.tags, Some(Active));
      UpdateKeepsSound(t, existing.value, e);
    } else {
      CreateKeepsSound(t, Apply(t.store, write).0[|t.store|]);
    }
  }

  lemma UpdateWriteKeepsSound(t: Trace, write: Write)
    requires Sound(t) && write.UpdateWrite?
    ensures Sound(Next(t, write))
  {
    if write.id < |t.store| {
      UpdateKeepsSound(t, write.id, write.edit);
    }
  }

  lemma StatusKeepsDocument(d: Document, status: Status, written: seq<string>)
    requires DocumentSound(d, written)
    ensures DocumentSound(d.(status := status), written)
  {
  }

  lemma ArchiveKeepsSound(t: Trace, write: Write)
    requires Sound(t) && write.ArchiveWrite?
    ensures Sound(Next(t, write))
  {
    var after := Next(t, write);
    assert after.written == t.written;
    forall id | 0 <= id < |after.store|
      ensures DocumentSound(after.store[id], after.written[id])
    {
      assert DocumentSound(t.store[id], t.written[id]);
      if after.store[id] != t.store[id] {
        StatusKeepsDocument(t.store[id], Archived, t.written[id]);
      }
    }
  }

  lemma WriteKeepsSound(t: Trace, write: Write)
    requires Sound(t)
    ensures Sound(Next(t, write))
  {
    match write
    case UpsertWrite(_, _, _, _, _) => UpsertKeepsSound(t, write);
    case UpdateWrite(_, _, _) => UpdateWriteKeepsSound(t, write);
    case ArchiveWrite(_, _) => ArchiveKeepsSound(t, write);
  }

  /**
   * After any sequence of upserts, updates and archivals: a document's version is one more than
   * its number of saved versions, which are numbered from 1; its saved versions followed by its
   * content are exactly the successive contents ever written to it; and its chunks concatenate to
   * its normalised content, every chunk but the last exactly 800 long and the last not empty.
   */
  lemma {:induction false} DocumentsStaySound(writes: seq<Write>)
    ensures Sound(Run(writes))
  {
    if writes != [] {
      DocumentsStaySound(writes[..|writes| - 1]);
      WriteKeepsSound(Run(writes[..|writes| - 1]), writes[|writes| - 1]);
    }
  }
}
