/**
 * `odid_visit_tag`: for each IMG or VIDEO tag in the outgoing markup, stamp
 * a hash of its sources and, when every stored measurement for its xpath is
 * identical and was taken with the same sources, write the measured
 * `width`/`height` (and, for a VIDEO, an aspect-ratio `style`).
 */
module Visitor {
  import opened Wrappers
  import opened Markup
  import opened Dimension
  import opened Decimal

  /** One stored `intrinsicDimensions` value, as captured in the browser. */
  datatype Record = Record(width: nat, height: nat, srcHash: string)

  /** Meta attribute name under which the source hash is stamped. */
  const SrcHashMetaName := "intrinsic-dimensions-src-hash"
  /** The attribute that name becomes on the tag. */
  const SrcHashAttribute := MetaAttributePrefix + SrcHashMetaName
  /** Bookmark used for the SOURCE lookahead of a VIDEO. */
  const VideoBookmark := "intrinsic_dimensions_video"

  /*
   * Eligibility
   */

  /** IMG or VIDEO tags whose `width` and `height` are not both valid already. */
  predicate IsCandidate(tag: Tag)
  {
    && (tag.name == "IMG" || tag.name == "VIDEO")
    && !(IsValidDimension(AttrOf(tag, "width")) && IsValidDimension(AttrOf(tag, "height")))
  }

  predicate CandidateAt(tags: seq<Tag>, cursor: nat)
  {
    cursor < |tags| && IsCandidate(tags[cursor])
  }

  /*
   * Source collection
   */

  /** A VIDEO without a string `src` takes its sources from the SOURCE tags that follow. */
  predicate NeedsLookahead(tag: Tag)
  {
    !AttrOf(tag, "src").StrValue? && tag.name == "VIDEO"
  }

  /** Where the lookahead starting at `i` stops: the first VIDEO-named tag, or the end. */
  function LookaheadEnd(tags: seq<Tag>, i: nat): (e: nat)
    requires i <= |tags|
    ensures i <= e <= |tags|
    decreases |tags| - i
  {
    if i == |tags| || tags[i].name == "VIDEO" then i else LookaheadEnd(tags, i + 1)
  }

  /** The `src` a SOURCE tag contributes: its string `src`, if it has one. */
  function SourceUrl(tag: Tag): seq<string>
  {
    if tag.name == "SOURCE" && AttrOf(tag, "src").StrValue? then [AttrOf(tag, "src").s] else []
  }

  /** What the lookahead collects from index `i` on, stopping at a VIDEO-named tag. */
  function VideoSources(tags: seq<Tag>, i: nat): seq<string>
    requires i <= |tags|
    decreases |tags| - i
  {
    if i == |tags| || tags[i].name == "VIDEO" then [] else SourceUrl(tags[i]) + VideoSources(tags, i + 1)
  }

  /** One step of the lookahead over a tag that is not named VIDEO, after collecting `before`. */
  lemma LookaheadStep(tags: seq<Tag>, i: nat, before: seq<string>)
    requires i < |tags| && tags[i].name != "VIDEO"
    ensures (before + SourceUrl(tags[i])) + VideoSources(tags, i + 1) == before + VideoSources(tags, i)
    ensures LookaheadEnd(tags, i) == LookaheadEnd(tags, i + 1)
  {
  }

  /** The sources before any `srcset`: the `src`, or else a VIDEO's SOURCE `src`s. */
  function PrimarySources(tags: seq<Tag>, cursor: nat): seq<string>
    requires cursor < |tags|
  {
    var tag := tags[cursor];
    if AttrOf(tag, "src").StrValue? then [AttrOf(tag, "src").s]
    else if tag.name == "VIDEO" then VideoSources(tags, cursor + 1)
    else []
  }

  /** An IMG's string `srcset`, which comes last in the source list. */
  function SrcsetSource(tag: Tag): seq<string>
  {
    if tag.name == "IMG" && AttrOf(tag, "srcset").StrValue? then [AttrOf(tag, "srcset").s] else []
  }

  /** The lookahead has nothing left to collect at a VIDEO-named tag or at the end. */
  lemma LookaheadDone(tags: seq<Tag>, i: nat)
    requires i <= |tags| && (i == |tags| || tags[i].name == "VIDEO")
    ensures VideoSources(tags, i) == [] && LookaheadEnd(tags, i) == i
  {
  }

  /** The ordered source list of the tag at `cursor` (hashed as a whole). */
  function Sources(tags: seq<Tag>, cursor: nat): seq<string>
    requires cursor < |tags|
  {
    PrimarySources(tags, cursor) + SrcsetSource(tags[cursor])
  }

  /*
   * Consensus over the stored records
   */

  /** The stored records with the `null` entries dropped, in order. */
  function Present(stored: seq<Option<Record>>): (p: seq<Record>)
    ensures |p| <= |stored|
    ensures forall r :: r in p <==> Some(r) in stored
  {
    if stored == [] then []
    else
      var rest := Present(stored[1..]);
      assert forall r :: Some(r) in stored <==> Some(r) == stored[0] || Some(r) in stored[1..];
      match stored[0]
      case None => rest
      case Some(r) => [r] + rest
  }

  /** Every record equals the first one: width, height and source hash alike. */
  predicate Unanimous(records: seq<Record>)
  {
    forall i :: 0 <= i < |records| ==> records[i] == records[0]
  }

  /**
   * The record to apply, if any: there is at least one stored record, all
   * are identical, and the shared source hash is the current one.
   */
  function Consensus(stored: seq<Option<Record>>, currentHash: string): Option<Record>
  {
    var present := Present(stored);
    if |present| == 0 || !Unanimous(present) || present[0].srcHash != currentHash then None
    else Some(present[0])
  }

  /*
   * Attribute writes
   */

  /** The inline style given to a VIDEO, followed by its old style when that is a string. */
  function VideoStyle(width: nat, height: nat, oldStyle: AttrValue): string
  {
    "height: auto; width: 100%; aspect-ratio: " + NatToDecimal(width) + " / " + NatToDecimal(height) + ";"
    + (if oldStyle.StrValue? then oldStyle.s else "")
  }

  /** The tag with the agreed dimensions written into it. */
  function WithDimensions(tag: Tag, r: Record): (t: Tag)
    ensures t.name == tag.name && t.closer == tag.closer && t.xpath == tag.xpath
    ensures !tag.closer ==> AttrOf(t, "width") == StrValue(NatToDecimal(r.width))
    ensures !tag.closer ==> AttrOf(t, "height") == StrValue(NatToDecimal(r.height))
    ensures !tag.closer && tag.name == "VIDEO" ==>
      AttrOf(t, "style") == StrValue(VideoStyle(r.width, r.height, AttrOf(tag, "style")))
    ensures tag.name != "VIDEO" ==> AttrOf(t, "style") == AttrOf(tag, "style")
    ensures forall n :: n != "width" && n != "height" && n != "style" ==> AttrOf(t, n) == AttrOf(tag, n)
  {
    var sized := WithAttribute(WithAttribute(tag, "width", NatToDecimal(r.width)), "height", NatToDecimal(r.height));
    if tag.name == "VIDEO" then WithAttribute(sized, "style", VideoStyle(r.width, r.height, AttrOf(sized, "style")))
    else sized
  }

  /** The tag after the consensus step: the agreed dimensions, if any, written into it. */
  function Resolved(tag: Tag, agreed: Option<Record>): Tag
  {
    match agreed
    case None => tag
    case Some(r) => WithDimensions(tag, r)
  }

  /** The tag as the visit leaves it once its sources were collected. */
  function Annotated(tag: Tag, sources: seq<string>, stored: seq<Option<Record>>, hash: seq<string> -> string): Tag
  {
    var stamped := WithAttribute(tag, SrcHashAttribute, hash(sources));
    Resolved(stamped, Consensus(stored, hash(sources)))
  }

  /*
   * How a visit ends
   */

  datatype Exit =
    | NotCandidate            // not IMG/VIDEO, or both dimensions already valid
    | BookmarkFailed          // the VIDEO lookahead could not set its bookmark
    | SeekFailed              // the VIDEO lookahead could not seek back
    | Collected(sources: seq<string>)  // the source list was built and hashed

  /** Whether collecting the sources of the tag at `cursor` aborts, and how. */
  function CollectExit(tags: seq<Tag>, cursor: nat, bookmarks: map<string, nat>, maxBookmarks: nat, seeksLeft: nat): (x: Exit)
    requires cursor < |tags|
    ensures x != NotCandidate
    ensures x.Collected? ==> x.sources == Sources(tags, cursor)
  {
    if NeedsLookahead(tags[cursor]) && !(VideoBookmark in bookmarks || |bookmarks| < maxBookmarks) then BookmarkFailed
    else if NeedsLookahead(tags[cursor]) && seeksLeft == 0 then SeekFailed
    else Collected(Sources(tags, cursor))
  }

  /** How the visit of the tag at `cursor` ends, given the processor's bookmark and seek limits. */
  function VisitExit(tags: seq<Tag>, cursor: nat, bookmarks: map<string, nat>, maxBookmarks: nat, seeksLeft: nat): (x: Exit)
    ensures x != NotCandidate <==> CandidateAt(tags, cursor)
    ensures x.Collected? ==> x.sources == Sources(tags, cursor)
  {
    if !CandidateAt(tags, cursor) then NotCandidate
    else CollectExit(tags, cursor, bookmarks, maxBookmarks, seeksLeft)
  }

  /*
   * The visitor
   */

  /** The part of the tag visitor context the visitor uses. */
  class VisitorContext {
    const processor: TagProcessor
    /** For each xpath, the `intrinsicDimensions` of that element in every stored URL Metric. */
    const elements: map<string, seq<Option<Record>>>
    /** Whether the current tag was marked for tracking in URL Metrics. */
    var tracked: bool

    constructor (processor: TagProcessor, elements: map<string, seq<Option<Record>>>)
      ensures this.processor == processor && this.elements == elements && !tracked
    {
      this.processor := processor;
      this.elements := elements;
      tracked := false;
    }

    /** The stored records for `xpath`; none when the xpath was never measured. */
    function StoredFor(xpath: string): seq<Option<Record>>
    {
      if xpath in elements then elements[xpath] else []
    }

    /** `track_tag()`. */
    method TrackTag()
      modifies this`tracked
      ensures tracked
    {
      tracked := true;
    }
  }

  /** The `foreach` over the records after the first: true when none differs from it. */
  method AllEqualTo(first: Record, rest: seq<Record>) returns (same: bool)
    ensures same <==> forall i :: 0 <= i < |rest| ==> rest[i] == first
  {
    for i := 0 to |rest|
      invariant forall k :: 0 <= k < i ==> rest[k] == first
    {
      if rest[i] != first {
        return false;
      }
    }
    return true;
  }

  /**
   * The SOURCE lookahead of a VIDEO (from the bookmark on): collects the
   * `src` of every SOURCE tag up to the first VIDEO-named tag or the end of
   * the stream, changing nothing but the cursor.
   */
  method ScanVideoSources(processor: TagProcessor) returns (sources: seq<string>)
    requires processor.Valid() && processor.cursor < |processor.tags|
    modifies processor`cursor
    ensures processor.Valid()
    ensures sources == VideoSources(processor.tags, old(processor.cursor) + 1)
    ensures processor.cursor == LookaheadEnd(processor.tags, old(processor.cursor) + 1)
  {
    ghost var tags, start := processor.tags, processor.cursor;
    ghost var all, stop := VideoSources(tags, start + 1), LookaheadEnd(tags, start + 1);
    sources := [];
    var more := processor.NextTag();
    while more
      invariant processor.Valid() && processor.tags == tags
      invariant start < processor.cursor <= |tags|
      invariant more == (processor.cursor < |tags|)
      invariant sources + VideoSources(tags, processor.cursor) == all
      invariant LookaheadEnd(tags, processor.cursor) == stop
      decreases |tags| - processor.cursor
    {
      ghost var i, before := processor.cursor, sources;
      var name := processor.GetTag();
      if name == "SOURCE" {
        var src := processor.GetAttribute("src");
        if src.StrValue? {
          sources := sources + [src.s];
        }
      } else if name == "VIDEO" {
        break;
      }
      LookaheadStep(tags, i, before);
      assert sources == before + SourceUrl(tags[i]);
      more := processor.NextTag();
    }
    LookaheadDone(tags, processor.cursor);
    assert sources + [] == sources;
  }

  /**
   * The second half of the visit: stamps the hash of `sources` on the
   * current tag, reads the stored records for its xpath and writes the
   * agreed dimensions when there is consensus with that hash.
   */
  method StampAndResolve(ctx: VisitorContext, sources: seq<string>, hash: seq<string> -> string)
    requires ctx.processor.Valid() && ctx.processor.cursor < |ctx.processor.tags|
    modifies ctx.processor`tags
    ensures ctx.processor.Valid()
    ensures
      var p := ctx.processor;
      var tag := old(p.tags[p.cursor]);
      p.tags == old(p.tags)[p.cursor := Annotated(tag, sources, ctx.StoredFor(tag.xpath), hash)]
  {
    var processor := ctx.processor;
    var sourceHash := hash(sources);
    processor.SetMetaAttribute(SrcHashMetaName, sourceHash);

    var xpath := processor.GetXPath();
    var present := Present(ctx.StoredFor(xpath));
    if |present| == 0 {
      return;
    }
    var first := present[0];
    var same := AllEqualTo(first, present[1..]);
    if !same {
      return;
    }
    if sourceHash != first.srcHash {
      return;
    }
    assert Consensus(ctx.StoredFor(xpath), sourceHash) == Some(first);

    processor.SetAttribute("width", NatToDecimal(first.width));
    processor.SetAttribute("height", NatToDecimal(first.height));
    if processor.GetTag() == "VIDEO" {
      var oldStyle := processor.GetAttribute("style");
      processor.SetAttribute("style", VideoStyle(first.width, first.height, oldStyle));
    }
  }

  /**
   * Builds the source list of the current tag: its `src`, or else for a
   * VIDEO the SOURCE `src`s found by a lookahead that is undone by seeking
   * back to a bookmark; then an IMG's `srcset`. Reports a failed bookmark or
   * seek instead of a list.
   */
  method CollectSources(processor: TagProcessor) returns (exit: Exit)
    requires processor.Valid() && processor.cursor < |processor.tags|
    modifies processor`cursor, processor`bookmarks, processor`seeksLeft
    ensures processor.Valid()
    ensures
      var tags, cursor := processor.tags, old(processor.cursor);
      var lookahead := NeedsLookahead(tags[cursor]);
      && exit == CollectExit(tags, cursor, old(processor.bookmarks), processor.maxBookmarks, old(processor.seeksLeft))
      && processor.cursor == (if exit == SeekFailed then LookaheadEnd(tags, cursor + 1) else cursor)
      && processor.bookmarks == (if lookahead && exit != BookmarkFailed then old(processor.bookmarks)[VideoBookmark := cursor] else old(processor.bookmarks))
      && processor.seeksLeft == (if lookahead && exit.Collected? then old(processor.seeksLeft) - 1 else old(processor.seeksLeft))
  {
    ghost var tags, cursor := processor.tags, processor.cursor;
    var sources: seq<string> := [];
    var srcAttr := processor.GetAttribute("src");
    if srcAttr.StrValue? {
      sources := [srcAttr.s];
    } else if processor.GetTag() == "VIDEO" {
      var ok := processor.SetBookmark(VideoBookmark);
      if !ok {
        return BookmarkFailed;
      }
      sources := ScanVideoSources(processor);
      ok := processor.Seek(VideoBookmark);
      if !ok {
        return SeekFailed;
      }
    }
    assert sources == PrimarySources(tags, cursor);
    if processor.GetTag() == "IMG" {
      var srcset := processor.GetAttribute("srcset");
      if srcset.StrValue? {
        sources := sources + [srcset.s];
      }
    }
    return Collected(sources);
  }

  /** `odid_visit_tag`, with `hash` standing for `md5(wp_json_encode(...))`. */
  method VisitTag(ctx: VisitorContext, hash: seq<string> -> string)
    requires ctx.processor.Valid()
    modifies ctx, ctx.processor
    ensures ctx.processor.Valid()
    ensures ctx.tracked == (old(ctx.tracked) || CandidateAt(old(ctx.processor.tags), old(ctx.processor.cursor)))
    ensures
      var p, tags, cursor := ctx.processor, old(ctx.processor.tags), old(ctx.processor.cursor);
      var exit := VisitExit(tags, cursor, old(p.bookmarks), p.maxBookmarks, old(p.seeksLeft));
      && p.tags == (if exit.Collected? then tags[cursor := Annotated(tags[cursor], exit.sources, ctx.StoredFor(tags[cursor].xpath), hash)] else tags)
      && p.cursor == (if exit == SeekFailed then LookaheadEnd(tags, cursor + 1) else cursor)
      && p.bookmarks == (if exit == SeekFailed || (exit.Collected? && NeedsLookahead(tags[cursor])) then old(p.bookmarks)[VideoBookmark := cursor] else old(p.bookmarks))
      && p.seeksLeft == (if exit.Collected? && NeedsLookahead(tags[cursor]) then old(p.seeksLeft) - 1 else old(p.seeksLeft))
  {
    var processor := ctx.processor;
    ghost var tags, cursor := processor.tags, processor.cursor;

    var name := processor.GetTag();
    if name != "IMG" && name != "VIDEO" {
      return;
    }
    if IsValidDimension(processor.GetAttribute("width")) && IsValidDimension(processor.GetAttribute("height")) {
      return;
    }
    assert CandidateAt(tags, cursor);
    ctx.TrackTag();

    var exit := CollectSources(processor);
    if !exit.Collected? {
      return;
    }
    StampAndResolve(ctx, exit.sources, hash);
  }
}
