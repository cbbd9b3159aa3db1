/**
 * template/server/ServerTemplate: a template for servers, whose tag table
 * merges the "tags" sections of every document of the template's walk, the
 * first document defining a tag winning.
 */
module ServerTemplates {
  import opened Wrappers
  import opened Json
  import opened ApiTag
  import opened ApiTemplates

  /** The "tags" entries of one document, in order; none when it has no "tags". */
  function NodeTags(n: Json): seq<(string, Json)> {
    if Has(n, "tags") then Fields(Get(n, "tags").value) else []
  }

  /** The "tags" entries of every document of the walk, in walk order. */
  function TagEntries(nodes: seq<Json>): seq<(string, Json)> {
    if nodes == [] then [] else NodeTags(nodes[0]) + TagEntries(nodes[1..])
  }

  /**
   * The table the putIfAbsent loop builds from the entries, or the error of
   * the first Tag that cannot be built. Every entry's Tag is constructed,
   * even when its key is already present and the Tag is thrown away.
   */
  function TagTable(entries: seq<(string, Json)>): Result<map<string, Tag>> {
    if entries == [] then Ok(map[])
    else
      var prev :- TagTable(entries[..|entries| - 1]);
      var (key, node) := entries[|entries| - 1];
      var tag :- TagOf(node);
      Ok(if key in prev then prev else prev[key := tag])
  }

  /** A ServerTemplate: the Template it extends and its merged tag table. */
  datatype ServerTemplate = ServerTemplate(template: Template, tags: map<string, Tag>)

  /** The nested loop of the constructor over the walked documents. */
  method BuildTagTable(nodes: seq<Json>) returns (r: Result<map<string, Tag>>)
    ensures r == TagTable(TagEntries(nodes))
  {
    var tags: map<string, Tag> := map[];
    var i := 0;
    while i < |nodes|
      invariant i <= |nodes|
      invariant TagTable(TagEntries(nodes[..i])) == Ok(tags)
      decreases |nodes| - i
    {
      TagEntriesStep(nodes, i);
      if Has(nodes[i], "tags") {
        var next := PutTagsIfAbsent(TagEntries(nodes[..i]), Fields(Get(nodes[i], "tags").value), tags);
        if next.Err? {
          PrefixFailure(nodes, i + 1);
          return next;
        }
        tags := next.value;
      }
      i := i + 1;
    }
    assert nodes[..i] == nodes;
    return Ok(tags);
  }

  /** The inner loop: putIfAbsent of a new Tag for each entry of one document's "tags". */
  method PutTagsIfAbsent(done: seq<(string, Json)>, entries: seq<(string, Json)>, tags0: map<string, Tag>)
    returns (r: Result<map<string, Tag>>)
    requires TagTable(done) == Ok(tags0)
    ensures r == TagTable(done + entries)
  {
    var tags := tags0;
    var j := 0;
    assert done + entries[..0] == done;
    while j < |entries|
      invariant j <= |entries|
      invariant TagTable(done + entries[..j]) == Ok(tags)
      decreases |entries| - j
    {
      var tag := NewTag(entries[j].1);
      PutStep(done, entries, j, tags);
      if tag.Err? {
        return Err(tag.error);
      }
      if entries[j].0 !in tags {
        tags := tags[entries[j].0 := tag.value];
      }
      j := j + 1;
    }
    assert entries[..j] == entries;
    return Ok(tags);
  }

  /** One entry more: its Tag is put if the key is absent, or its failure is the failure of all the entries. */
  lemma PutStep(done: seq<(string, Json)>, entries: seq<(string, Json)>, j: nat, tags: map<string, Tag>)
    requires j < |entries| && TagTable(done + entries[..j]) == Ok(tags)
    ensures TagOf(entries[j].1).Err? ==> TagTable(done + entries) == Err(TagOf(entries[j].1).error)
    ensures TagOf(entries[j].1).Ok? ==>
      TagTable(done + entries[..j + 1]) ==
        Ok(if entries[j].0 in tags then tags else tags[entries[j].0 := TagOf(entries[j].1).value])
  {
    var whole := done + entries[..j + 1];
    assert whole[..|whole| - 1] == done + entries[..j];
    assert whole[|whole| - 1] == entries[j];
    var step := TagTableSnoc(done + entries[..j], entries[j], whole, tags);
    if step.Err? {
      SplitFailure(done, entries, j + 1);
    }
  }

  /** TagTable one entry further, for an entry list named by a variable. */
  lemma TagTableSnoc(front: seq<(string, Json)>, e: (string, Json), whole: seq<(string, Json)>, tags: map<string, Tag>)
    returns (step: Result<Tag>)
    requires |whole| > 0 && whole[..|whole| - 1] == front && whole[|whole| - 1] == e
    requires TagTable(front) == Ok(tags)
    ensures step == TagOf(e.1)
    ensures step.Err? ==> TagTable(whole) == Err(step.error)
    ensures step.Ok? ==> TagTable(whole) == Ok(if e.0 in tags then tags else tags[e.0 := step.value])
  {
    step := TagOf(e.1);
  }

  /** A failure after a prefix of the entries is the failure of them all. */
  lemma SplitFailure(done: seq<(string, Json)>, entries: seq<(string, Json)>, n: nat)
    requires n <= |entries| && TagTable(done + entries[..n]).Err?
    ensures TagTable(done + entries) == TagTable(done + entries[..n])
  {
    SplitAt(done, entries, n);
    FailureExtends(done + entries[..n], entries[n..], done + entries);
  }

  /** Cutting the entries at n and joining them again changes nothing. */
  lemma SplitAt<T>(done: seq<T>, entries: seq<T>, n: nat)
    requires n <= |entries|
    ensures (done + entries[..n]) + entries[n..] == done + entries
  {
    assert entries[..n] + entries[n..] == entries;
  }

  /** TagTableFailurePersists, for a whole named by a variable. */
  lemma FailureExtends(a: seq<(string, Json)>, b: seq<(string, Json)>, whole: seq<(string, Json)>)
    requires whole == a + b && TagTable(a).Err?
    ensures TagTable(whole) == TagTable(a)
  {
    TagTableFailurePersists(a, b);
  }

  /** Walking one more document adds that document's entries. */
  lemma TagEntriesStep(nodes: seq<Json>, i: nat)
    requires i < |nodes|
    ensures Has(nodes[i], "tags") ==>
      TagEntries(nodes[..i + 1]) == TagEntries(nodes[..i]) + Fields(Get(nodes[i], "tags").value)
    ensures !Has(nodes[i], "tags") ==> TagEntries(nodes[..i + 1]) == TagEntries(nodes[..i])
  {
    assert nodes[..i + 1] == nodes[..i] + [nodes[i]];
    TagEntriesAppend(nodes[..i], [nodes[i]]);
    assert TagEntries([nodes[i]]) == NodeTags(nodes[i]) + TagEntries([]);
    assert TagEntries(nodes[..i]) + [] == TagEntries(nodes[..i]);
  }

  /** A failure on a prefix of the walk is the failure of the whole walk. */
  lemma PrefixFailure(nodes: seq<Json>, n: nat)
    requires n <= |nodes| && TagTable(TagEntries(nodes[..n])).Err?
    ensures TagTable(TagEntries(nodes)) == TagTable(TagEntries(nodes[..n]))
  {
    assert nodes[..n] + nodes[n..] == nodes;
    TagEntriesAppend(nodes[..n], nodes[n..]);
    TagTableFailurePersists(TagEntries(nodes[..n]), TagEntries(nodes[n..]));
  }

  /**
   * new ServerTemplate(node): the Template, already built in the arena,
   * then the tag table over getAllNodes(): it succeeds exactly when the
   * table does, and fails with the table's error.
   */
  method NewServerTemplate(arena: Arena, id: TemplateId) returns (r: Result<ServerTemplate>)
    requires Closed(arena) && id in arena
    ensures r.Ok? <==> TagTable(TagEntries(AllNodes(arena, id))).Ok?
    ensures r.Ok? ==> r.value == ServerTemplate(arena[id], TagTable(TagEntries(AllNodes(arena, id))).value)
    ensures r.Err? ==> r.error == TagTable(TagEntries(AllNodes(arena, id))).error
  {
    var nodes := GetAllNodes(arena, id);
    var tags := BuildTagTable(nodes);
    if tags.Err? {
      return Err(tags.error);
    }
    return Ok(ServerTemplate(arena[id], tags.value));
  }

  lemma {:induction false} TagEntriesAppend(a: seq<Json>, b: seq<Json>)
    ensures TagEntries(a + b) == TagEntries(a) + TagEntries(b)
  {
    if a != [] {
      assert (a + b)[0] == a[0];
      assert (a + b)[1..] == a[1..] + b;
      TagEntriesAppend(a[1..], b);
      calc {
        TagEntries(a + b);
        NodeTags(a[0]) + TagEntries(a[1..] + b);
        NodeTags(a[0]) + (TagEntries(a[1..]) + TagEntries(b));
        (NodeTags(a[0]) + TagEntries(a[1..])) + TagEntries(b);
      }
    } else {
      assert a + b == b;
    }
  }

  /** Once a Tag fails to build, the constructor fails with that error whatever follows. */
  lemma {:induction false} TagTableFailurePersists(a: seq<(string, Json)>, b: seq<(string, Json)>)
    requires TagTable(a).Err?
    ensures TagTable(a + b) == TagTable(a)
    decreases |b|
  {
    if b != [] {
      var front := b[..|b| - 1];
      TagTableFailurePersists(a, front);
      assert (a + b)[..|a + b| - 1] == a + front;
    } else {
      assert a + b == a;
    }
  }

  /**
   * The table holds exactly the keys of the entries, each with the Tag
   * built from its first entry: later definitions never replace it.
   */
  lemma {:induction false} TagTableFirstWins(entries: seq<(string, Json)>, key: string)
    requires TagTable(entries).Ok?
    ensures key in TagTable(entries).value <==> Lookup(entries, key).Some?
    ensures key in TagTable(entries).value ==>
      TagOf(Lookup(entries, key).value).Ok? && TagTable(entries).value[key] == TagOf(Lookup(entries, key).value).value
  {
    if entries != [] {
      var front := entries[..|entries| - 1];
      var last := entries[|entries| - 1];
      assert entries == front + [last];
      TagTableFirstWins(front, key);
      LookupAppend(front, [last], key);
    }
  }

  /** The constructor succeeds exactly when every entry's Tag can be built, shadowed or not. */
  lemma {:induction false} TagTableOk(entries: seq<(string, Json)>)
    ensures TagTable(entries).Ok? <==> forall i :: 0 <= i < |entries| ==> TagOf(entries[i].1).Ok?
  {
    if entries != [] {
      var front := entries[..|entries| - 1];
      var last := entries[|entries| - 1];
      TagTableOk(front);
      if TagTable(front).Ok? {
        var step := TagTableSnoc(front, last, entries, TagTable(front).value);
      } else {
        assert TagTable(entries) == TagTable(front);
      }
      assert forall i :: 0 <= i < |front| ==> front[i] == entries[i];
    }
  }

  /**
   * A key is in the table exactly when some document of the walk defines
   * it, and it takes the first document's definition; the template's own
   * document, walked first, therefore overrides what it inherits.
   */
  lemma {:induction false} TagEntriesLookup(nodes: seq<Json>, key: string)
    ensures Lookup(TagEntries(nodes), key).Some? <==>
      exists j :: 0 <= j < |nodes| && Lookup(NodeTags(nodes[j]), key).Some?
    ensures |nodes| > 0 && Lookup(NodeTags(nodes[0]), key).Some? ==>
      Lookup(TagEntries(nodes), key) == Lookup(NodeTags(nodes[0]), key)
  {
    if nodes != [] {
      LookupAppend(NodeTags(nodes[0]), TagEntries(nodes[1..]), key);
      TagEntriesLookup(nodes[1..], key);
      if Lookup(TagEntries(nodes[1..]), key).Some? {
        var j :| 0 <= j < |nodes[1..]| && Lookup(NodeTags(nodes[1..][j]), key).Some?;
        assert Lookup(NodeTags(nodes[j + 1]), key).Some?;
      }
      if exists j :: 0 <= j < |nodes| && Lookup(NodeTags(nodes[j]), key).Some? {
        var j :| 0 <= j < |nodes| && Lookup(NodeTags(nodes[j]), key).Some?;
        if j > 0 {
          assert nodes[1..][j - 1] == nodes[j];
        }
      }
    }
  }

  /** The own document's definition of a tag is the one the table keeps. */
  lemma OwnTagsWin(nodes: seq<Json>, key: string)
    requires |nodes| > 0 && Lookup(NodeTags(nodes[0]), key).Some?
    requires TagTable(TagEntries(nodes)).Ok?
    ensures key in TagTable(TagEntries(nodes)).value
    ensures TagOf(Lookup(NodeTags(nodes[0]), key).value).Ok?
    ensures TagTable(TagEntries(nodes)).value[key] == TagOf(Lookup(NodeTags(nodes[0]), key).value).value
  {
    TagEntriesLookup(nodes, key);
    TagTableFirstWins(TagEntries(nodes), key);
  }

  /** A document without "tags" leaves the table as it would be without it. */
  lemma UntaggedNodeIgnored(a: seq<Json>, n: Json, b: seq<Json>)
    requires !Has(n, "tags")
    ensures TagTable(TagEntries(a + [n] + b)) == TagTable(TagEntries(a + b))
  {
    TagEntriesAppend(a + [n], b);
    TagEntriesAppend(a, [n]);
    TagEntriesAppend(a, b);
    assert [n][1..] == [];
    assert TagEntries([n]) == [];
    assert TagEntries(a) + [] == TagEntries(a);
    assert a + [n] + b == (a + [n]) + b;
  }
}
