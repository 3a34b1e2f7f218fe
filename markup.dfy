/**
 * The HTML tag processor the visitor drives. It walks a stream of tags
 * (openers and closers), reads and writes attributes of the current tag,
 * and can save a position under a bookmark name and seek back to it.
 * Only the behaviour the visitor relies on is modelled.
 */
module Markup {
  /** What `get_attribute()` returns: `null`, `true` (a bare attribute) or a string. */
  datatype AttrValue = NullValue | TrueValue | StrValue(s: string)

  /**
   * One tag of the stream: its upper-case name, whether it is a closer,
   * its attributes keyed by lower-case name, and its xpath.
   */
  datatype Tag = Tag(name: string, closer: bool, attrs: map<string, AttrValue>, xpath: string)

  /** Prefix the processor gives to the attributes written by `set_meta_attribute()`. */
  const MetaAttributePrefix := "data-od-"

  /** `get_attribute()` on a tag: a closer, or an attribute that is not there, gives `null`. */
  function AttrOf(tag: Tag, name: string): (v: AttrValue)
    ensures v != NullValue ==> !tag.closer && name in tag.attrs && v == tag.attrs[name]
    ensures !tag.closer && name in tag.attrs ==> v == tag.attrs[name]
    ensures tag.closer || name !in tag.attrs ==> v == NullValue
  {
    if tag.closer || name !in tag.attrs then NullValue else tag.attrs[name]
  }

  /** `set_attribute()` on a tag: a closer has no attributes and is left alone. */
  function WithAttribute(tag: Tag, name: string, value: string): (r: Tag)
    ensures r.name == tag.name && r.closer == tag.closer && r.xpath == tag.xpath
    ensures !tag.closer ==> AttrOf(r, name) == StrValue(value)
    ensures forall n :: n != name ==> AttrOf(r, n) == AttrOf(tag, n)
  {
    if tag.closer then tag else tag.(attrs := tag.attrs[name := StrValue(value)])
  }

  class TagProcessor {
    /** The whole tag stream of the document. */
    var tags: seq<Tag>
    /** Index of the current tag; `|tags|` once the stream is exhausted. */
    var cursor: nat
    /** Bookmark name to the index it was set on. */
    var bookmarks: map<string, nat>
    /** How many distinct bookmarks may exist at once. */
    const maxBookmarks: nat
    /** How many more seeks the processor allows. */
    var seeksLeft: nat

    ghost predicate Valid()
      reads this
    {
      && cursor <= |tags|
      && forall b :: b in bookmarks ==> bookmarks[b] < |tags|
    }

    /** A processor positioned on the first tag of `tags`. */
    constructor (tags: seq<Tag>, maxBookmarks: nat, maxSeeks: nat)
      ensures Valid()
      ensures this.tags == tags && cursor == 0 && bookmarks == map[]
      ensures this.maxBookmarks == maxBookmarks && seeksLeft == maxSeeks
    {
      this.tags := tags;
      this.maxBookmarks := maxBookmarks;
      cursor := 0;
      bookmarks := map[];
      seeksLeft := maxSeeks;
    }

    /** `get_tag()`: the name of the current tag, empty when there is none. */
    function GetTag(): string
      reads this
    {
      if cursor < |tags| then tags[cursor].name else ""
    }

    /** `get_attribute()` on the current tag. */
    function GetAttribute(name: string): AttrValue
      reads this
    {
      if cursor < |tags| then AttrOf(tags[cursor], name) else NullValue
    }

    /** `get_xpath()` of the current tag. */
    function GetXPath(): string
      reads this
    {
      if cursor < |tags| then tags[cursor].xpath else ""
    }

    /** `next_tag()`: moves to the following tag, opener or closer. */
    method NextTag() returns (found: bool)
      requires Valid()
      modifies this`cursor
      ensures Valid()
      ensures cursor == if old(cursor) < |tags| then old(cursor) + 1 else old(cursor)
      ensures found == (cursor < |tags|)
    {
      if cursor < |tags| {
        cursor := cursor + 1;
      }
      found := cursor < |tags|;
    }

    /** Whether `SetBookmark(name)` would succeed in the current state. */
    predicate CanSetBookmark(name: string)
      reads this
    {
      cursor < |tags| && (name in bookmarks || |bookmarks| < maxBookmarks)
    }

    /**
     * `set_bookmark()`: fails when there is no current tag, or when the name
     * is new and the bookmark limit is reached.
     */
    method SetBookmark(name: string) returns (ok: bool)
      requires Valid()
      modifies this`bookmarks
      ensures Valid()
      ensures ok == old(CanSetBookmark(name))
      ensures bookmarks == if ok then old(bookmarks)[name := cursor] else old(bookmarks)
    {
      ok := CanSetBookmark(name);
      if ok {
        bookmarks := bookmarks[name := cursor];
      }
    }

    /** `seek()`: fails when the bookmark is unknown or the seek budget is spent. */
    method Seek(name: string) returns (ok: bool)
      requires Valid()
      modifies this`cursor, this`seeksLeft
      ensures Valid()
      ensures ok == (name in bookmarks && old(seeksLeft) > 0)
      ensures cursor == if ok then bookmarks[name] else old(cursor)
      ensures seeksLeft == if ok then old(seeksLeft) - 1 else old(seeksLeft)
    {
      ok := name in bookmarks && seeksLeft > 0;
      if ok {
        cursor := bookmarks[name];
        seeksLeft := seeksLeft - 1;
      }
    }

    /** `set_attribute()` on the current tag. */
    method SetAttribute(name: string, value: string)
      requires Valid()
      modifies this`tags
      ensures Valid()
      ensures tags == if old(cursor) < |old(tags)| then old(tags)[cursor := WithAttribute(old(tags)[cursor], name, value)] else old(tags)
    {
      if cursor < |tags| {
        tags := tags[cursor := WithAttribute(tags[cursor], name, value)];
      }
    }

    /** `set_meta_attribute()`: an attribute under the processor's own prefix. */
    method SetMetaAttribute(name: string, value: string)
      requires Valid()
      modifies this`tags
      ensures Valid()
      ensures tags == if old(cursor) < |old(tags)| then old(tags)[cursor := WithAttribute(old(tags)[cursor], MetaAttributePrefix + name, value)] else old(tags)
    {
      SetAttribute(MetaAttributePrefix + name, value);
    }
  }
}
