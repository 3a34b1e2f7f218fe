/**
 * Properties of the tag visitor: what the lookahead collects, when
 * consensus is reached, what a visit writes, and why a second visit of a
 * tag that received dimensions leaves it alone.
 */
module VisitorProperties {
  import opened Wrappers
  import opened Markup
  import opened Dimension
  import opened Decimal
  import opened Visitor

  /** The `src` strings of the SOURCE tags of `ts`, in order (a plain filter). */
  function SourceUrls(ts: seq<Tag>): seq<string>
  {
    if ts == [] then [] else SourceUrl(ts[0]) + SourceUrls(ts[1..])
  }

  /** The lookahead stops at the first VIDEO-named tag after `i`, or at the end of the stream. */
  lemma {:induction false} LookaheadStopsAtFirstVideo(tags: seq<Tag>, i: nat)
    requires i <= |tags|
    ensures forall k :: i <= k < LookaheadEnd(tags, i) ==> tags[k].name != "VIDEO"
    ensures LookaheadEnd(tags, i) < |tags| ==> tags[LookaheadEnd(tags, i)].name == "VIDEO"
    decreases |tags| - i
  {
    if i < |tags| && tags[i].name != "VIDEO" {
      LookaheadStopsAtFirstVideo(tags, i + 1);
    }
  }

  /**
   * The lookahead collects exactly the SOURCE `src`s between the VIDEO and
   * the first following VIDEO-named tag (or the end of the stream).
   */
  lemma {:induction false} VideoSourcesAreSourceUrls(tags: seq<Tag>, i: nat)
    requires i <= |tags|
    ensures VideoSources(tags, i) == SourceUrls(tags[i..LookaheadEnd(tags, i)])
    decreases |tags| - i
  {
    if i == |tags| || tags[i].name == "VIDEO" {
      assert tags[i..LookaheadEnd(tags, i)] == [];
    } else {
      VideoSourcesAreSourceUrls(tags, i + 1);
      var e := LookaheadEnd(tags, i);
      assert tags[i..e][1..] == tags[i + 1..e];
    }
  }

  /**
   * Consensus is reached on `r` exactly when `r` is stored, carries the
   * current hash, and every stored record is identical to it.
   */
  lemma ConsensusMeaning(stored: seq<Option<Record>>, currentHash: string, r: Record)
    ensures Consensus(stored, currentHash) == Some(r) <==>
      && Some(r) in stored
      && r.srcHash == currentHash
      && forall x :: Some(x) in stored ==> x == r
  {
    var present := Present(stored);
    if Consensus(stored, currentHash) == Some(r) {
      assert present[0] == r && r in present;
      forall x | Some(x) in stored
        ensures x == r
      {
        assert x in present;
        var i :| 0 <= i < |present| && present[i] == x;
      }
    }
    if Some(r) in stored && r.srcHash == currentHash && forall x :: Some(x) in stored ==> x == r {
      assert r in present;
      assert present[0] in present;
      forall i | 0 <= i < |present|
        ensures present[i] == present[0]
      {
        assert present[i] in present;
      }
    }
  }

  /** Two different stored records block consensus, whatever the hash. */
  lemma DisagreementBlocksConsensus(stored: seq<Option<Record>>, currentHash: string, a: Record, b: Record)
    requires Some(a) in stored && Some(b) in stored && a != b
    ensures Consensus(stored, currentHash) == None
  {
    if Consensus(stored, currentHash).Some? {
      ConsensusMeaning(stored, currentHash, Consensus(stored, currentHash).value);
    }
  }

  /** A stored record taken with other sources blocks consensus. */
  lemma StaleRecordBlocksConsensus(stored: seq<Option<Record>>, currentHash: string, a: Record)
    requires Some(a) in stored && a.srcHash != currentHash
    ensures Consensus(stored, currentHash) == None
  {
    if Consensus(stored, currentHash).Some? {
      ConsensusMeaning(stored, currentHash, Consensus(stored, currentHash).value);
    }
  }

  /** With no stored record (only `null` entries, or none at all), no dimension is written. */
  lemma NoRecordsNoDimensions(tag: Tag, sources: seq<string>, stored: seq<Option<Record>>, hash: seq<string> -> string)
    requires forall i :: 0 <= i < |stored| ==> stored[i] == None
    ensures Annotated(tag, sources, stored, hash) == WithAttribute(tag, SrcHashAttribute, hash(sources))
  {
    var p := Present(stored);
    if |p| > 0 {
      assert Some(p[0]) in stored;
    }
  }

  /**
   * Whatever the stored records, a visit that collected its sources stamps
   * their hash, and changes no attribute other than the stamp, `width`,
   * `height` and, for a VIDEO only, `style`.
   */
  lemma AnnotatedWrites(tag: Tag, sources: seq<string>, stored: seq<Option<Record>>, hash: seq<string> -> string)
    ensures var t := Annotated(tag, sources, stored, hash);
      && t.name == tag.name && t.closer == tag.closer && t.xpath == tag.xpath
      && (!tag.closer ==> AttrOf(t, SrcHashAttribute) == StrValue(hash(sources)))
      && (tag.name != "VIDEO" ==> AttrOf(t, "style") == AttrOf(tag, "style"))
      && forall n :: n != "width" && n != "height" && n != "style" && n != SrcHashAttribute ==>
           AttrOf(t, n) == AttrOf(tag, n)
  {
  }

  /** On consensus, `width` and `height` are the decimal forms of the agreed record's values. */
  lemma AgreedDimensionsWritten(tag: Tag, sources: seq<string>, stored: seq<Option<Record>>, hash: seq<string> -> string)
    requires !tag.closer
    requires Consensus(stored, hash(sources)).Some?
    ensures var r, t := Consensus(stored, hash(sources)).value, Annotated(tag, sources, stored, hash);
      && AttrOf(t, "width") == StrValue(NatToDecimal(r.width))
      && AttrOf(t, "height") == StrValue(NatToDecimal(r.height))
      && (tag.name == "VIDEO" ==> AttrOf(t, "style") == StrValue(VideoStyle(r.width, r.height, AttrOf(tag, "style"))))
  {
  }

  /**
   * A tag that received dimensions is no longer a candidate: visiting it
   * again does nothing, not even tracking.
   */
  lemma AgreedTagIsSettled(tags: seq<Tag>, cursor: nat, sources: seq<string>, stored: seq<Option<Record>>, hash: seq<string> -> string,
                           bookmarks: map<string, nat>, maxBookmarks: nat, seeksLeft: nat)
    requires cursor < |tags| && !tags[cursor].closer
    requires Consensus(stored, hash(sources)).Some?
    ensures VisitExit(tags[cursor := Annotated(tags[cursor], sources, stored, hash)], cursor, bookmarks, maxBookmarks, seeksLeft) == NotCandidate
  {
    var r := Consensus(stored, hash(sources)).value;
    AgreedDimensionsWritten(tags[cursor], sources, stored, hash);
    DecimalIsValidDimension(r.width);
    DecimalIsValidDimension(r.height);
  }

  /**
   * Records captured while the tag had other sources are never applied,
   * provided the hash of those sources differs from the current one.
   */
  lemma StaleSourcesNeverApplied(tag: Tag, sources: seq<string>, captured: seq<string>, stored: seq<Option<Record>>, hash: seq<string> -> string)
    requires hash(captured) != hash(sources)
    requires forall i :: 0 <= i < |stored| && stored[i].Some? ==> stored[i].value.srcHash == hash(captured)
    ensures var t := Annotated(tag, sources, stored, hash);
      AttrOf(t, "width") == AttrOf(tag, "width") && AttrOf(t, "height") == AttrOf(tag, "height")
      && AttrOf(t, "style") == AttrOf(tag, "style")
  {
    var p := Present(stored);
    if |p| > 0 {
      assert Some(p[0]) in stored;
      StaleRecordBlocksConsensus(stored, hash(sources), p[0]);
    }
  }

  /*
   * Scenarios
   */

  function Opener(name: string, attrs: map<string, AttrValue>): Tag
  {
    Tag(name, false, attrs, "/HTML/BODY/" + name)
  }

  /** A VIDEO without `src` and three SOURCE children collects exactly their `src`s. */
  lemma VideoWithThreeSources()
    ensures var tags := [
        Opener("VIDEO", map[]),
        Opener("SOURCE", map["src" := StrValue("x.mp4")]),
        Opener("SOURCE", map["src" := StrValue("y.webm")]),
        Opener("SOURCE", map["src" := StrValue("z.ogv")]),
        Tag("VIDEO", true, map[], "/HTML/BODY/VIDEO")
      ];
      Sources(tags, 0) == ["x.mp4", "y.webm", "z.ogv"] && LookaheadEnd(tags, 1) == 4
  {
    var tags := [
        Opener("VIDEO", map[]),
        Opener("SOURCE", map["src" := StrValue("x.mp4")]),
        Opener("SOURCE", map["src" := StrValue("y.webm")]),
        Opener("SOURCE", map["src" := StrValue("z.ogv")]),
        Tag("VIDEO", true, map[], "/HTML/BODY/VIDEO")
      ];
    assert VideoSources(tags, 4) == [];
    assert VideoSources(tags, 3) == ["z.ogv"];
    assert VideoSources(tags, 2) == ["y.webm", "z.ogv"];
  }

  /** Two identical records taken with the current `src` give the IMG its dimensions. */
  lemma ImageWithAgreeingRecords(hash: seq<string> -> string)
    ensures var img := Opener("IMG", map["src" := StrValue("a.jpg")]);
      var rec := Record(800, 600, hash(["a.jpg"]));
      var t := Annotated(img, Sources([img], 0), [Some(rec), None, Some(rec)], hash);
      AttrOf(t, "width") == StrValue("800") && AttrOf(t, "height") == StrValue("600")
  {
    var img := Opener("IMG", map["src" := StrValue("a.jpg")]);
    var rec := Record(800, 600, hash(["a.jpg"]));
    assert Sources([img], 0) == ["a.jpg"];
    ConsensusMeaning([Some(rec), None, Some(rec)], hash(["a.jpg"]), rec);
    assert NatToDecimal(800) == "800" by {
      assert NatToDecimal(8) == "8";
      assert NatToDecimal(80) == "80";
    }
    assert NatToDecimal(600) == "600" by {
      assert NatToDecimal(6) == "6";
      assert NatToDecimal(60) == "60";
    }
  }

  /**
   * A client of the visitor: a VIDEO without `src` is tracked, its SOURCE
   * lookahead is undone, and a single matching record sizes it.
   */
  method VisitVideoWithoutSrc(hash: seq<string> -> string)
  {
    var tags := [
        Opener("VIDEO", map["style" := StrValue("border: 0;")]),
        Opener("SOURCE", map["src" := StrValue("x.mp4")]),
        Tag("VIDEO", true, map[], "/HTML/BODY/VIDEO")
      ];
    var processor := new TagProcessor(tags, 1, 1);
    var rec := Record(640, 360, hash(["x.mp4"]));
    var ctx := new VisitorContext(processor, map[tags[0].xpath := [Some(rec)]]);
    assert VideoSources(tags, 2) == [];
    assert Sources(tags, 0) == ["x.mp4"];
    ConsensusMeaning([Some(rec)], hash(["x.mp4"]), rec);
    assert !IsValidDimension(AttrOf(tags[0], "width"));
    assert NeedsLookahead(tags[0]);
    assert VisitExit(tags, 0, map[], 1, 1) == Collected(["x.mp4"]);
    assert ctx.StoredFor(tags[0].xpath) == [Some(rec)];
    AgreedDimensionsWritten(tags[0], ["x.mp4"], [Some(rec)], hash);
    AnnotatedWrites(tags[0], ["x.mp4"], [Some(rec)], hash);
    VisitTag(ctx, hash);
    assert ctx.tracked;
    assert processor.cursor == 0 && processor.seeksLeft == 0;
    assert AttrOf(processor.tags[0], "width") == StrValue(NatToDecimal(640));
    assert AttrOf(processor.tags[0], SrcHashAttribute) == StrValue(hash(["x.mp4"]));
    assert processor.tags[1..] == tags[1..];
  }
}
