/**
 * utils/text_processing.py: grouping a page's header sections into chunk
 * lists (`AdvancedMarkdownSplitter.split_text`) and the two-stage relevance
 * decision of `ContentFilter.filter_and_add_to_vectorestore`.
 *
 * The markdown header splitter, the recursive character splitter and the
 * language models behind `has_semantic_match` are parameters: the first two
 * as functions from text to pieces, the last as an `Nlp` record of
 * uninterpreted term extraction, vector presence and similarity.
 */
module TextProcessing {
  import opened Wrappers
  import opened Documents
  import opened Schemas

  // ---------------------------------------------------------------------
  // Grouping sections by header path
  // ---------------------------------------------------------------------

  /** One section of the header splitter: the header values in order, and the text. */
  datatype Section = Section(headers: seq<string>, content: string)

  /** One entry of a chunk dictionary: a header key and its chunk list. */
  datatype Group = Group(key: string, chunks: seq<string>)

  /**
   * The insertion-ordered dictionary `split_text` builds: the keys in the
   * order they were first inserted, and each key's chunk list.
   */
  datatype ChunkDict = ChunkDict(order: seq<string>, entries: map<string, seq<string>>)
  {
    /** The keys are listed once each, and exactly the keys with an entry are listed. */
    ghost predicate Valid()
    {
      && (forall i, j :: 0 <= i < j < |order| ==> order[i] != order[j])
      && (forall k :: k in entries <==> k in order)
    }

    /** `items()`: the entries in insertion order. */
    function Items(): (r: seq<Group>)
      requires Valid()
      ensures |r| == |order|
      ensures forall i :: 0 <= i < |r| ==> r[i] == Group(order[i], entries[order[i]])
    {
      seq(|order|, i requires 0 <= i < |order| => Group(order[i], entries[order[i]]))
    }

    /** The list under `key`, or the empty list when the key is absent. */
    function ChunksOf(key: string): seq<string>
    {
      if key in entries then entries[key] else []
    }

    /**
     * `d[key] = chunks`: an existing key keeps its position and gets the new
     * list; a new key is added at the end.
     */
    function Put(key: string, chunks: seq<string>): (r: ChunkDict)
      requires Valid()
      ensures r.Valid()
      ensures r.entries == entries[key := chunks]
      ensures key in entries ==> r.order == order
      ensures key !in entries ==> r.order == order + [key]
    {
      if key in entries then ChunkDict(order, entries[key := chunks])
      else ChunkDict(order + [key], entries[key := chunks])
    }
  }

  const EmptyDict := ChunkDict([], map[])

  /** Joins strings with "\n" between consecutive ones, as `"\n".join` does. */
  function JoinLines(parts: seq<string>): string
  {
    if |parts| == 0 then ""
    else if |parts| == 1 then parts[0]
    else parts[0] + "\n" + JoinLines(parts[1..])
  }

  /**
   * The loop over sub-chunks: each one is appended to the key's list, the
   * first one creating the entry when the key is new.
   */
  function AppendChunks(d: ChunkDict, key: string, chunks: seq<string>): (r: ChunkDict)
    requires d.Valid()
    ensures r.Valid()
    ensures |chunks| == 0 ==> r == d
    ensures |chunks| > 0 ==> r.entries == d.entries[key := d.ChunksOf(key) + chunks]
    ensures key in d.entries || |chunks| == 0 ==> r.order == d.order
    ensures key !in d.entries && |chunks| > 0 ==> r.order == d.order + [key]
    decreases |chunks|
  {
    if |chunks| == 0 then d
    else
      var existing := d.ChunksOf(key);
      var next := d.Put(key, existing + [chunks[0]]);
      var r := AppendChunks(next, key, chunks[1..]);
      assert |chunks| > 1 ==> (existing + [chunks[0]]) + chunks[1..] == existing + chunks;
      assert |chunks| == 1 ==> chunks == [chunks[0]];
      r
  }

  /** The recursive character splitter applied to an oversize section. */
  type SubSplitter = string -> seq<string>

  /** The group key of a section: its header values joined by "\n". */
  function KeyOf(s: Section): string
  {
    JoinLines(s.headers)
  }

  /**
   * One iteration of `split_text`'s loop: an oversize section's sub-chunks
   * are appended under its key; a section of at most `chunkSize` characters
   * replaces the key's list with itself alone.
   */
  function AddSection(d: ChunkDict, s: Section, chunkSize: int, split: SubSplitter): (r: ChunkDict)
    requires d.Valid()
    ensures r.Valid()
    ensures |s.content| > chunkSize && |split(s.content)| > 0 ==>
      r.entries == d.entries[KeyOf(s) := d.ChunksOf(KeyOf(s)) + split(s.content)]
    ensures |s.content| > chunkSize && |split(s.content)| == 0 ==> r == d
    ensures |s.content| <= chunkSize ==> r.entries == d.entries[KeyOf(s) := [s.content]]
    ensures forall k :: k in d.order ==> k in r.order
    ensures r.order == d.order || (KeyOf(s) !in d.entries && r.order == d.order + [KeyOf(s)])
  {
    if |s.content| > chunkSize then AppendChunks(d, KeyOf(s), split(s.content))
    else d.Put(KeyOf(s), [s.content])
  }

  /** `AdvancedMarkdownSplitter.split_text` over the header splitter's sections. */
  function SplitText(sections: seq<Section>, chunkSize: int, split: SubSplitter): (r: ChunkDict)
    ensures r.Valid()
  {
    if |sections| == 0 then EmptyDict
    else
      AddSection(SplitText(sections[..|sections| - 1], chunkSize, split), sections[|sections| - 1], chunkSize, split)
  }

  /**
   * The list a key ends up with, read off the sections with that key alone:
   * the last section of at most `chunkSize` characters, followed by the
   * sub-chunks of every later oversize section with the same key.
   */
  function ExpectedChunks(sections: seq<Section>, key: string, chunkSize: int, split: SubSplitter): seq<string>
  {
    if |sections| == 0 then []
    else
      var s := sections[|sections| - 1];
      var earlier := ExpectedChunks(sections[..|sections| - 1], key, chunkSize, split);
      if KeyOf(s) != key then earlier
      else if |s.content| <= chunkSize then [s.content]
      else earlier + split(s.content)
  }

  /** Some section creates an entry for `key`: a small one, or an oversize one that splits into something. */
  predicate Creates(sections: seq<Section>, key: string, chunkSize: int, split: SubSplitter)
  {
    exists i :: 0 <= i < |sections| && KeyOf(sections[i]) == key &&
      (|sections[i].content| <= chunkSize || |split(sections[i].content)| > 0)
  }

  /** A key is created by the last section or by an earlier one. */
  lemma CreatesStep(sections: seq<Section>, key: string, chunkSize: int, split: SubSplitter)
    requires |sections| > 0
    ensures var s := sections[|sections| - 1];
      Creates(sections, key, chunkSize, split) <==>
        Creates(sections[..|sections| - 1], key, chunkSize, split) ||
        (KeyOf(s) == key && (|s.content| <= chunkSize || |split(s.content)| > 0))
  {
    var pre := sections[..|sections| - 1];
    if Creates(sections, key, chunkSize, split) {
      var i :| 0 <= i < |sections| && KeyOf(sections[i]) == key &&
        (|sections[i].content| <= chunkSize || |split(sections[i].content)| > 0);
      if i < |pre| {
        assert pre[i] == sections[i];
      }
    }
    if Creates(pre, key, chunkSize, split) {
      var i :| 0 <= i < |pre| && KeyOf(pre[i]) == key &&
        (|pre[i].content| <= chunkSize || |split(pre[i].content)| > 0);
      assert sections[i] == pre[i];
    }
  }

  lemma {:induction false} NoCreatorNoChunks(sections: seq<Section>, key: string, chunkSize: int, split: SubSplitter)
    requires !Creates(sections, key, chunkSize, split)
    ensures ExpectedChunks(sections, key, chunkSize, split) == []
  {
    if |sections| > 0 {
      CreatesStep(sections, key, chunkSize, split);
      NoCreatorNoChunks(sections[..|sections| - 1], key, chunkSize, split);
    }
  }

  /**
   * Each key's list depends only on the sections carrying that key: the key
   * is present exactly when one of them creates it, and then holds the
   * expected chunks.
   */
  lemma {:induction false} SplitTextPerKey(sections: seq<Section>, key: string, chunkSize: int, split: SubSplitter)
    ensures var d := SplitText(sections, chunkSize, split);
      && (key in d.entries <==> Creates(sections, key, chunkSize, split))
      && (key in d.entries ==> d.entries[key] == ExpectedChunks(sections, key, chunkSize, split))
  {
    if |sections| > 0 {
      var pre := sections[..|sections| - 1];
      SplitTextPerKey(pre, key, chunkSize, split);
      CreatesStep(sections, key, chunkSize, split);
      if !Creates(pre, key, chunkSize, split) {
        NoCreatorNoChunks(pre, key, chunkSize, split);
      }
    }
  }

  /** Section `s` creates an entry for `key`. */
  predicate SectionCreates(s: Section, key: string, chunkSize: int, split: SubSplitter)
  {
    KeyOf(s) == key && (|s.content| <= chunkSize || |split(s.content)| > 0)
  }

  /**
   * The position of the first section that creates an entry for `key`, or
   * the number of sections when none does.
   */
  function FirstCreator(sections: seq<Section>, key: string, chunkSize: int, split: SubSplitter): (r: nat)
    ensures r <= |sections|
    ensures r < |sections| ==> SectionCreates(sections[r], key, chunkSize, split)
    ensures forall i :: 0 <= i < r ==> !SectionCreates(sections[i], key, chunkSize, split)
    decreases |sections|
  {
    if |sections| == 0 then 0
    else if SectionCreates(sections[0], key, chunkSize, split) then 0
    else
      var r := 1 + FirstCreator(sections[1..], key, chunkSize, split);
      assert forall i :: 1 <= i < r ==> sections[i] == sections[1..][i - 1];
      r
  }

  /** Some section creates `key` exactly when its first creator is one of the sections. */
  lemma CreatesHasFirstCreator(sections: seq<Section>, key: string, chunkSize: int, split: SubSplitter)
    ensures Creates(sections, key, chunkSize, split) <==> FirstCreator(sections, key, chunkSize, split) < |sections|
  {
    var r := FirstCreator(sections, key, chunkSize, split);
    if r < |sections| {
      assert SectionCreates(sections[r], key, chunkSize, split);
    }
  }

  /**
   * One more section leaves the first creator of a key the earlier sections
   * create where it was; any other key is first created by the new section,
   * or by none.
   */
  lemma FirstCreatorStep(sections: seq<Section>, key: string, chunkSize: int, split: SubSplitter)
    requires |sections| > 0
    ensures var pre := sections[..|sections| - 1]; var i := FirstCreator(pre, key, chunkSize, split);
      && (i < |pre| ==> FirstCreator(sections, key, chunkSize, split) == i)
      && (i == |pre| && SectionCreates(sections[|pre|], key, chunkSize, split) ==> FirstCreator(sections, key, chunkSize, split) == |pre|)
      && (i == |pre| && !SectionCreates(sections[|pre|], key, chunkSize, split) ==> FirstCreator(sections, key, chunkSize, split) == |sections|)
  {
    var pre := sections[..|sections| - 1];
    assert forall j :: 0 <= j < |pre| ==> sections[j] == pre[j];
    var i2 := FirstCreator(pre, key, chunkSize, split);
    var i1 := FirstCreator(sections, key, chunkSize, split);
    assert i2 < |pre| ==> SectionCreates(sections[i2], key, chunkSize, split);
    assert i1 < |pre| ==> SectionCreates(pre[i1], key, chunkSize, split);
  }

  /** `split_text` lists a key exactly when some section creates it. */
  lemma SplitTextKeys(sections: seq<Section>, key: string, chunkSize: int, split: SubSplitter)
    ensures key in SplitText(sections, chunkSize, split).order <==> FirstCreator(sections, key, chunkSize, split) < |sections|
  {
    SplitTextPerKey(sections, key, chunkSize, split);
    CreatesHasFirstCreator(sections, key, chunkSize, split);
  }

  /**
   * `split_text` lists its keys in the order of each key's first creating
   * section, and the groups are filtered in that order.
   */
  lemma {:induction false} SplitTextKeyOrder(sections: seq<Section>, chunkSize: int, split: SubSplitter, a: int, b: int)
    ensures var order := SplitText(sections, chunkSize, split).order;
      0 <= a < b < |order| ==>
        FirstCreator(sections, order[a], chunkSize, split) < FirstCreator(sections, order[b], chunkSize, split) < |sections|
  {
    var d := SplitText(sections, chunkSize, split);
    if |sections| > 0 && 0 <= a < b < |d.order| {
      var pre := sections[..|sections| - 1];
      var s := sections[|pre|];
      var d0 := SplitText(pre, chunkSize, split);
      assert d == AddSection(d0, s, chunkSize, split);
      var key := KeyOf(s);
      assert d.order == d0.order || (key !in d0.order && d.order == d0.order + [key]);
      var ka := d0.order[a];
      assert d.order[a] == ka;
      SplitTextKeys(pre, ka, chunkSize, split);
      FirstCreatorStep(sections, ka, chunkSize, split);
      if b < |d0.order| {
        var kb := d0.order[b];
        assert d.order[b] == kb;
        SplitTextKeyOrder(pre, chunkSize, split, a, b);
        FirstCreatorStep(sections, kb, chunkSize, split);
      } else {
        assert d.order[b] == key && key !in d0.order;
        SplitTextKeys(pre, key, chunkSize, split);
        SplitTextKeys(sections, key, chunkSize, split);
        FirstCreatorStep(sections, key, chunkSize, split);
      }
    }
  }

  // ---------------------------------------------------------------------
  // Semantic match
  // ---------------------------------------------------------------------

  /**
   * The language-model services behind `has_semantic_match`: the entities and
   * keyphrases extracted from a text (seeded by the target terms), whether a
   * term has a word vector, and the similarity of two terms.
   */
  datatype Nlp = Nlp(
    terms: (seq<string>, string) -> seq<string>,
    hasVector: string -> bool,
    similarity: (string, string) -> real)

  /** A target term and a text term are close: both have vectors and their similarity exceeds the threshold. */
  predicate Close(nlp: Nlp, target: string, term: string, threshold: real)
  {
    nlp.hasVector(target) && nlp.hasVector(term) && nlp.similarity(target, term) > threshold
  }

  /** The inner loop: some extracted term is close to `target`. */
  function AnyTermClose(nlp: Nlp, target: string, terms: seq<string>, threshold: real): (b: bool)
    ensures b <==> exists j :: 0 <= j < |terms| && Close(nlp, target, terms[j], threshold)
  {
    if |terms| == 0 then false
    else Close(nlp, target, terms[0], threshold) || AnyTermClose(nlp, target, terms[1..], threshold)
  }

  /** The outer loop: some target is close to some extracted term. */
  function AnyPairClose(nlp: Nlp, targets: seq<string>, terms: seq<string>, threshold: real): (b: bool)
    ensures b <==> exists i, j :: 0 <= i < |targets| && 0 <= j < |terms| && Close(nlp, targets[i], terms[j], threshold)
  {
    if |targets| == 0 then false
    else AnyTermClose(nlp, targets[0], terms, threshold) || AnyPairClose(nlp, targets[1..], terms, threshold)
  }

  /**
   * `has_semantic_match`: false for an empty target list, an empty text or a
   * text with no extracted terms; otherwise true exactly when some target and
   * some extracted term are close.
   */
  function HasSemanticMatch(nlp: Nlp, targets: seq<string>, text: string, threshold: real): (b: bool)
    ensures |targets| == 0 || |text| == 0 ==> !b
    ensures |targets| > 0 && |text| > 0 ==>
      (b <==> exists i, j :: 0 <= i < |targets| && 0 <= j < |nlp.terms(targets, text)| &&
                Close(nlp, targets[i], nlp.terms(targets, text)[j], threshold))
  {
    if |targets| == 0 || |text| == 0 then false
    else
      var terms := nlp.terms(targets, text);
      if |terms| == 0 then false else AnyPairClose(nlp, targets, terms, threshold)
  }

  // ---------------------------------------------------------------------
  // ContentFilter
  // ---------------------------------------------------------------------

  /** A `ContentFilter`: target terms and the two thresholds. */
  datatype ContentFilter = ContentFilter(targets: QueryParameters, headerThreshold: real, chunkThreshold: real)

  /** One `aadd_texts` call on the vector store. */
  datatype Insert = Insert(texts: seq<string>, metadatas: seq<Metadata>)

  /**
   * The metadata of a group's chunks: `chunk_position` 1..n and `headers`,
   * overlaid by the page metadata, which wins on a clash.
   */
  function ChunkMetadatas(key: string, n: nat, pageMetadata: Metadata): (r: seq<Metadata>)
    ensures |r| == n
    ensures forall i :: 0 <= i < n ==> r[i].Keys == {"chunk_position", "headers"} + pageMetadata.Keys
    ensures forall i, k :: 0 <= i < n && k in pageMetadata ==> r[i][k] == pageMetadata[k]
    ensures forall i :: 0 <= i < n && "chunk_position" !in pageMetadata ==> r[i]["chunk_position"] == Int(i + 1)
    ensures forall i :: 0 <= i < n && "headers" !in pageMetadata ==> r[i]["headers"] == Str(key)
  {
    seq(n, i requires 0 <= i < n => map["chunk_position" := Int(i + 1), "headers" := Str(key)] + pageMetadata)
  }

  /** Either target list matches `text` at the header threshold. */
  predicate Matches(f: ContentFilter, nlp: Nlp, text: string)
  {
    HasSemanticMatch(nlp, f.targets.entities, text, f.headerThreshold) ||
    HasSemanticMatch(nlp, f.targets.keywords, text, f.headerThreshold)
  }

  /** The chunk-stage loop: the first matching chunk stops the search. */
  function FirstMatchingChunk(f: ContentFilter, nlp: Nlp, chunks: seq<string>): (r: Option<nat>)
    ensures r.Some? ==> r.value < |chunks| && Matches(f, nlp, chunks[r.value])
    ensures r.Some? ==> forall j :: 0 <= j < r.value ==> !Matches(f, nlp, chunks[j])
    ensures r.None? ==> forall j :: 0 <= j < |chunks| ==> !Matches(f, nlp, chunks[j])
  {
    if |chunks| == 0 then None
    else if Matches(f, nlp, chunks[0]) then Some(0)
    else
      match FirstMatchingChunk(f, nlp, chunks[1..])
      case None => None
      case Some(j) => Some(j + 1)
  }

  /**
   * The decision for one header group: a non-empty key that matches accepts
   * the whole group at once (header stage); otherwise the first matching
   * chunk accepts the whole group (chunk stage); otherwise nothing is added.
   */
  function DecideGroup(f: ContentFilter, nlp: Nlp, g: Group, pageMetadata: Metadata): (r: Option<Insert>)
    ensures r.Some? ==> r.value == Insert(g.chunks, ChunkMetadatas(g.key, |g.chunks|, pageMetadata))
    ensures |g.key| > 0 && Matches(f, nlp, g.key) ==> r.Some?
    ensures r.Some? <==> ((|g.key| > 0 && Matches(f, nlp, g.key)) ||
                          exists j :: 0 <= j < |g.chunks| && Matches(f, nlp, g.chunks[j]))
  {
    var insert := Insert(g.chunks, ChunkMetadatas(g.key, |g.chunks|, pageMetadata));
    if |g.key| > 0 && Matches(f, nlp, g.key) then Some(insert)
    else if FirstMatchingChunk(f, nlp, g.chunks).Some? then Some(insert)
    else None
  }

  /** The group loop of `filter_and_add_to_vectorestore`: the store insertions, in group order. */
  function FilterGroups(f: ContentFilter, nlp: Nlp, groups: seq<Group>, pageMetadata: Metadata): (r: seq<Insert>)
    ensures |r| <= |groups|
  {
    if |groups| == 0 then []
    else
      var rest := FilterGroups(f, nlp, groups[1..], pageMetadata);
      match DecideGroup(f, nlp, groups[0], pageMetadata)
      case None => rest
      case Some(insert) => [insert] + rest
  }

  /**
   * `filter_and_add_to_vectorestore`: the group loop, then the closing log
   * line. That line reads the loop variable `headers`, which is unbound when
   * the loop never ran, so a page that split into no group at all raises
   * (`None`) after inserting nothing.
   */
  function FilterAndAdd(f: ContentFilter, nlp: Nlp, groups: seq<Group>, pageMetadata: Metadata): (r: Option<seq<Insert>>)
    ensures r.None? <==> |groups| == 0
    ensures r.Some? ==> r.value == FilterGroups(f, nlp, groups, pageMetadata) && |r.value| <= |groups|
  {
    if |groups| == 0 then None else Some(FilterGroups(f, nlp, groups, pageMetadata))
  }

  /** Filtering two runs of groups inserts the first run's chunks, then the second's. */
  lemma {:induction false} FilterGroupsConcat(f: ContentFilter, nlp: Nlp, g1: seq<Group>, g2: seq<Group>, md: Metadata)
    ensures FilterGroups(f, nlp, g1 + g2, md) == FilterGroups(f, nlp, g1, md) + FilterGroups(f, nlp, g2, md)
  {
    if |g1| == 0 {
      assert g1 + g2 == g2;
    } else {
      assert (g1 + g2)[0] == g1[0];
      assert (g1 + g2)[1..] == g1[1..] + g2;
      FilterGroupsConcat(f, nlp, g1[1..], g2, md);
    }
  }

  /** A single group contributes all of its chunks in one insertion, or nothing. */
  lemma SingleGroupAllOrNothing(f: ContentFilter, nlp: Nlp, g: Group, md: Metadata)
    ensures FilterGroups(f, nlp, [g], md) == [] || FilterGroups(f, nlp, [g], md) == [Insert(g.chunks, ChunkMetadatas(g.key, |g.chunks|, md))]
    ensures |FilterGroups(f, nlp, [g], md)| == 1 <==> DecideGroup(f, nlp, g, md).Some?
  {
    assert [g][1..] == [];
  }

  /** With no entities and no keywords nothing is ever added. */
  lemma {:induction false} EmptyTargetsAddNothing(f: ContentFilter, nlp: Nlp, groups: seq<Group>, md: Metadata)
    requires |f.targets.entities| == 0 && |f.targets.keywords| == 0
    ensures FilterGroups(f, nlp, groups, md) == []
  {
    if |groups| > 0 {
      EmptyTargetsAddNothing(f, nlp, groups[1..], md);
      var g := groups[0];
      assert !Matches(f, nlp, g.key);
      assert FirstMatchingChunk(f, nlp, g.chunks).None?;
    }
  }

  /** The chunk threshold is never read: changing it changes nothing. */
  lemma ChunkThresholdUnused(f: ContentFilter, nlp: Nlp, groups: seq<Group>, md: Metadata, t: real)
    ensures FilterAndAdd(f.(chunkThreshold := t), nlp, groups, md) == FilterAndAdd(f, nlp, groups, md)
  {
    var f' := f.(chunkThreshold := t);
    assert forall text :: Matches(f', nlp, text) == Matches(f, nlp, text);
    ChunkThresholdUnusedRec(f, f', nlp, groups, md);
  }

  lemma {:induction false} ChunkThresholdUnusedRec(f: ContentFilter, f': ContentFilter, nlp: Nlp, groups: seq<Group>, md: Metadata)
    requires forall text :: Matches(f', nlp, text) == Matches(f, nlp, text)
    ensures FilterGroups(f', nlp, groups, md) == FilterGroups(f, nlp, groups, md)
  {
    if |groups| > 0 {
      ChunkThresholdUnusedRec(f, f', nlp, groups[1..], md);
      var g := groups[0];
      assert DecideGroup(f', nlp, g, md).Some? == DecideGroup(f, nlp, g, md).Some?;
    }
  }
}
