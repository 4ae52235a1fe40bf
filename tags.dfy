/** Tag extraction (`getTags`): the inline tags the host's metadata cache found in a note,
    followed by the note's frontmatter `tags`, each with its first `#` removed. */
module Tags {
  import opened Wrappers
  import opened JsString

  /** One inline tag occurrence found by the metadata cache; `tag` keeps its `#`.
      The occurrence's position in the note is not read by the plugin and is not modelled. */
  datatype TagCache = TagCache(tag: string)

  /** The frontmatter `tags` value: YAML yields either a bare string or a list of strings. */
  datatype FrontmatterTags = Bare(text: string) | List(items: seq<string>)

  /** The parsed frontmatter; only its `tags` key is read. */
  datatype Frontmatter = Frontmatter(tags: Option<FrontmatterTags>)

  /** The host's cached metadata for one file. */
  datatype CachedMetadata = CachedMetadata(tags: Option<seq<TagCache>>, frontmatter: Option<Frontmatter>)

  /** JavaScript truthiness of a frontmatter `tags` value: the empty string is falsy,
      any other string and every array (even an empty one) is truthy. */
  predicate Truthy(v: FrontmatterTags)
  {
    !(v.Bare? && v.text == "")
  }

  /** A bare string stands for the one-element list holding it; it is never split. */
  function AsList(v: FrontmatterTags): seq<string>
  {
    match v
    case Bare(text) => [text]
    case List(items) => items
  }

  /** The inline entries `getTags` walks: none without metadata or without a `tags` array. */
  function InlineEntries(metadata: Option<CachedMetadata>): seq<TagCache>
  {
    if metadata.Some? && metadata.value.tags.Some? then metadata.value.tags.value else []
  }

  /** The frontmatter tags `getTags` walks: none without metadata, without frontmatter,
      or when the `tags` value is absent or falsy. */
  function FrontmatterEntries(metadata: Option<CachedMetadata>): seq<string>
  {
    if metadata.Some? && metadata.value.frontmatter.Some?
       && metadata.value.frontmatter.value.tags.Some?
       && Truthy(metadata.value.frontmatter.value.tags.value)
    then AsList(metadata.value.frontmatter.value.tags.value)
    else []
  }

  function TagTexts(entries: seq<TagCache>): seq<string>
  {
    seq(|entries|, i requires 0 <= i < |entries| => entries[i].tag)
  }

  /** The strings collected before the final `map`: inline tags in cache order, then
      frontmatter tags in their given order, with nothing deduplicated. */
  function RawTags(metadata: Option<CachedMetadata>): seq<string>
  {
    TagTexts(InlineEntries(metadata)) + FrontmatterEntries(metadata)
  }

  /** Every collected tag with its first `#` removed, in order. */
  function StripAll(tags: seq<string>): seq<string>
  {
    seq(|tags|, i requires 0 <= i < |tags| => StripMarker(tags[i]))
  }

  /** What `getTags` returns for a file whose cached metadata is `metadata`. */
  function Extracted(metadata: Option<CachedMetadata>): (tags: seq<string>)
    ensures |tags| == |InlineEntries(metadata)| + |FrontmatterEntries(metadata)|
  {
    StripAll(RawTags(metadata))
  }

  /** `getTags`: push every inline tag, then every frontmatter tag, onto a local array,
      and return it with the first `#` of each element removed. */
  method GetTags(metadata: Option<CachedMetadata>) returns (result: seq<string>)
    ensures result == Extracted(metadata)
  {
    var tags: seq<string> := [];
    if metadata.Some? && metadata.value.tags.Some? {
      var inline := metadata.value.tags.value;
      var i := 0;
      while i < |inline|
        invariant 0 <= i <= |inline|
        invariant |tags| == i
        invariant forall k :: 0 <= k < i ==> tags[k] == inline[k].tag
      {
        tags := tags + [inline[i].tag];
        i := i + 1;
      }
    }
    ghost var inlineTexts := tags;
    assert inlineTexts == TagTexts(InlineEntries(metadata));
    if metadata.Some? && metadata.value.frontmatter.Some? {
      var value := metadata.value.frontmatter.value.tags;
      if value.Some? && Truthy(value.value) {
        var frontmatterTags := match value.value
          case Bare(text) => [text]
          case List(items) => items;
        var j := 0;
        while j < |frontmatterTags|
          invariant 0 <= j <= |frontmatterTags|
          invariant tags == inlineTexts + frontmatterTags[..j]
        {
          tags := tags + [frontmatterTags[j]];
          j := j + 1;
        }
        assert frontmatterTags[..j] == frontmatterTags;
      }
    }
    assert tags == RawTags(metadata);
    result := StripAll(tags);
  }

  /** Inline tags come first, in cache order, then frontmatter tags in their given order;
      each element is its raw tag with the first `#` removed, so it is one character
      shorter exactly when the raw tag contains `#`. */
  lemma ExtractedAt(metadata: Option<CachedMetadata>, i: int)
    requires 0 <= i < |InlineEntries(metadata)| + |FrontmatterEntries(metadata)|
    ensures var raw := if i < |InlineEntries(metadata)| then InlineEntries(metadata)[i].tag
                       else FrontmatterEntries(metadata)[i - |InlineEntries(metadata)|];
            && i < |Extracted(metadata)|
            && Extracted(metadata)[i] == DropFirstHash(raw)
            && |Extracted(metadata)[i]| == (if '#' in raw then |raw| - 1 else |raw|)
  {
    StripMarkerLength(RawTags(metadata)[i]);
  }

  /** A note contributes no tags exactly when every source is missing or empty:
      no metadata, or no inline entries together with no usable frontmatter `tags`
      (no frontmatter, no `tags` key, an empty string or an empty list). */
  predicate NoTagSources(metadata: Option<CachedMetadata>)
  {
    match metadata
    case None => true
    case Some(m) =>
      (m.tags == None || m.tags == Some([]))
      && (m.frontmatter == None
          || m.frontmatter.value.tags == None
          || m.frontmatter.value.tags == Some(Bare(""))
          || m.frontmatter.value.tags == Some(List([])))
  }

  lemma ExtractedEmpty(metadata: Option<CachedMetadata>)
    ensures Extracted(metadata) == [] <==> NoTagSources(metadata)
  {
  }

  /** A bare-string frontmatter value is the single tag it spells, never split. */
  lemma BareFrontmatterIsOneTag(inline: Option<seq<TagCache>>, s: string)
    requires s != ""
    ensures var metadata := Some(CachedMetadata(inline, Some(Frontmatter(Some(Bare(s))))));
            Extracted(metadata) == Extracted(Some(CachedMetadata(inline, None))) + [StripMarker(s)]
  {
  }

  /** Inline `#a`, `#b` and no frontmatter give `a`, `b`. */
  lemma InlineOnlyExample()
    ensures Extracted(Some(CachedMetadata(Some([TagCache("#a"), TagCache("#b")]), None))) == ["a", "b"]
  {
    var metadata := Some(CachedMetadata(Some([TagCache("#a"), TagCache("#b")]), None));
    assert RawTags(metadata) == ["#a", "#b"];
    StripMarkerAt("#a", 0);
    StripMarkerAt("#b", 0);
    assert "#a"[1..] == "a" && "#b"[1..] == "b";
    assert StripMarker("#a") == "a";
    assert StripMarker("#b") == "b";
    assert Extracted(metadata) == [StripMarker("#a"), StripMarker("#b")];
  }

  /** Inline `#a` and frontmatter `[b, c]` give `a`, `b`, `c`, in that order. */
  lemma InlineThenFrontmatterExample()
    ensures Extracted(Some(CachedMetadata(Some([TagCache("#a")]),
                                          Some(Frontmatter(Some(List(["b", "c"]))))))) == ["a", "b", "c"]
  {
    var metadata := Some(CachedMetadata(Some([TagCache("#a")]), Some(Frontmatter(Some(List(["b", "c"]))))));
    assert RawTags(metadata) == ["#a", "b", "c"];
    StripMarkerAt("#a", 0);
    assert "#a"[1..] == "a";
    assert StripMarker("#a") == "a";
    StripMarkerNone("b");
    StripMarkerNone("c");
    assert Extracted(metadata) == [StripMarker("#a"), StripMarker("b"), StripMarker("c")];
  }

  /** A tag present in both sources is reported twice: nothing is deduplicated. */
  lemma DuplicatesKeptExample()
    ensures Extracted(Some(CachedMetadata(Some([TagCache("#a")]),
                                          Some(Frontmatter(Some(List(["a"]))))))) == ["a", "a"]
  {
    var metadata := Some(CachedMetadata(Some([TagCache("#a")]), Some(Frontmatter(Some(List(["a"]))))));
    assert RawTags(metadata) == ["#a", "a"];
    StripMarkerAt("#a", 0);
    assert "#a"[1..] == "a";
    assert StripMarker("#a") == "a";
    StripMarkerNone("a");
    assert Extracted(metadata) == [StripMarker("#a"), StripMarker("a")];
  }
}
