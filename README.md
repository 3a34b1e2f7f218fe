# Intrinsic Dimensions tag visitor, modelled in Dafny

This project models the server half of the Optimization Detective
"Intrinsic Dimensions" extension. The browser measures the natural size of
IMG and VIDEO elements. On later page loads, the tag visitor `odid_visit_tag`
writes those sizes back into the markup as `width`/`height` (and, for a
VIDEO, an aspect-ratio `style`), but only when that is safe:

- every stored measurement for the element's xpath is identical;
- the measurements were taken from the same sources the element has now.

The sources are compared through a hash of the element's ordered source
list. The visitor stamps that hash on the tag, and the browser sends it
back with each measurement.

Modules:

- `Markup` (markup.dfy): the HTML tag processor the visitor drives.
  - A `TagProcessor` class holds the tag stream (`seq<Tag>`), a cursor,
    named bookmarks, a bookmark limit and a seek budget.
  - `NextTag` visits openers and closers alike.
  - `SetBookmark` fails when the name is new and the limit is reached.
  - `Seek` fails when the bookmark is unknown or the budget is spent.
  - `SetAttribute` writes a string into the current tag and leaves a
    closer unchanged.
  - `SetMetaAttribute` writes under the `data-od-` prefix, which is the
    attribute `detect.js` reads back.
- `Dimension` (dimension.dfy): `odid_is_valid_dimension`. It models PHP
  `trim()` and the pattern `/^\d+%?$/`, including PCRE's `$` matching
  before a final newline. It proves that a valid dimension is exactly
  whitespace, then one or more ASCII digits, then at most one `%`, then
  whitespace.
- `Decimal` (decimal.dfy): the `(string)` cast and `%d` of a non-negative
  integer, with its round trip.
- `Visitor` (visitor.dfy): the stored record `{width, height, srcHash}`;
  the context (a `tracked` flag and the xpath-to-records map); and the
  visitor itself.
  - `VisitTag` checks eligibility and tracks the tag.
  - `CollectSources` builds the source list, running the VIDEO lookahead
    `ScanVideoSources` between a bookmark and a seek.
  - `StampAndResolve` stamps the hash, drops `null` records, runs the
    early-return comparison loop `AllEqualTo`, checks the hash, and writes
    the attributes.
  - Each method is proved against pure specification functions:
    `VisitExit`, `Sources`, `VideoSources`, `LookaheadEnd`, `Consensus`
    and `Annotated`.
- `VisitorProperties` (visitor_properties.dfy): lemmas about those
  functions, two scenarios, and a client method that calls `VisitTag` on a
  concrete VIDEO.
- `Schema` (schema.dfy): `odid_add_element_item_schema_properties`.

The md5-of-JSON hash is a parameter `hash: seq<string> -> string` of the
visitor. Only the equality of hashes matters to the logic.

Where the code says more or less than its own comments, the model follows
the code:

- The comment at helper.php:137 asks that all dimensions be equal, but the
  records are compared as whole records (helper.php:147). A different
  `srcHash` also blocks consensus, not only a different width or height.
  PHP's `!==` on arrays also compares key order and value types; the model
  does not (see `Visitor.Record` under "## Left out").
- The comment at helper.php:92 speaks of the closing tag, but the
  lookahead stops at the first tag named VIDEO, opener or closer, or at the
  end of the stream (helper.php:85-95). It does not look for the matching
  closer.
- The comment at helper.php:55 speaks of a width and height that are
  already supplied. A value such as `" 100% "` or `"100%"` counts as a valid
  dimension (helper.php:32-38). A tag whose width and height are both such
  values is neither tracked nor changed. A tag with only one of them is
  still tracked and stamped.
- The comment at helper.php:98 says the optimization is aborted. When the
  seek back fails, the visit ends with the cursor where the lookahead
  stopped (`VisitTag`'s `ensures`). Only the hash stamp and the dimensions
  are skipped.

## Model

| member | source | states |
|---|---|---|
| Dimension.TrimStart | helper.php:36 | PHP `ltrim()` with the default character set: space, tab, newline, carriage return, NUL and vertical tab; characterised by `TrimStartShape` |
| Dimension.TrimEnd | helper.php:36 | PHP `rtrim()` with the same character set; characterised by `TrimEndShape` |
| Dimension.Trim | helper.php:36 | PHP `trim()`: `rtrim` after `ltrim`; characterised by `TrimParts` |
| Dimension.MatchesDimensionPattern | helper.php:36 | `preg_match('/^\d+%?$/', t) === 1`: digits (at least one) and an optional `%`, where PCRE's `$` also accepts one final newline |
| Dimension.IsValidDimension | helper.php:32-38 | `odid_is_valid_dimension`: a string whose trim matches the pattern; `ValidDimensionParts` and `ValidDimensionFromParts` give both directions of its meaning |
| Dimension.TrimStartShape | helper.php:36 | `ltrim` removes a prefix made only of PHP's default whitespace and stops at the first other character |
| Dimension.TrimEndShape | helper.php:36 | `rtrim` removes a suffix made only of whitespace and stops at the last other character |
| Dimension.TrimParts | helper.php:36 | `trim(s)` is `s` minus a whitespace prefix and a whitespace suffix, and does not end in whitespace |
| Dimension.PatternParts | helper.php:36 | a trimmed string matching `/^\d+%?$/` is one or more digits and at most one `%`; the pattern's newline allowance cannot apply to it |
| Dimension.ValidDimensionParts | helper.php:32-38 | every value accepted by `odid_is_valid_dimension` is a string of the form whitespace, digits (at least one), an optional `%`, whitespace |
| Dimension.ValidDimensionFromParts | helper.php:32-38 | every string of that form is accepted (the converse) |
| Dimension.OnlyStringsAreValid | helper.php:32-38 | `null` and boolean `true` are never valid dimensions |
| Dimension.TrimStartOfPadded | helper.php:36 | `ltrim` of whitespace followed by a non-whitespace-led string returns that string |
| Dimension.TrimEndOfPadded | helper.php:36 | `rtrim` of a non-whitespace-ended string followed by whitespace returns that string |
| Decimal.NatToDecimal | helper.php:158-159 | the decimal form of a count is non-empty, all digits, and has no leading zero unless the count is 0 |
| Decimal.DecimalRoundTrip | helper.php:158-159 | reading the decimal form back gives the original number |
| Decimal.DecimalIsValidDimension | helper.php:158-159 | a written `width`/`height` is itself a valid dimension |
| Markup.AttrOf | helper.php:74 | `get_attribute` gives `null` for a closer or a missing attribute, and the stored value otherwise |
| Markup.WithAttribute | helper.php:158 | `set_attribute` sets exactly the named attribute to the string, keeps every other attribute, and leaves a closer unchanged |
| Markup.TagProcessor.GetTag | helper.php:51 | `get_tag()`: the name of the tag under the cursor, empty past the end |
| Markup.TagProcessor.GetAttribute | helper.php:57 | `get_attribute()` on the tag under the cursor, by `AttrOf`; `null` past the end |
| Markup.TagProcessor.GetXPath | helper.php:112 | `get_xpath()`: the xpath of the tag under the cursor |
| Markup.TagProcessor.NextTag | helper.php:85 | `next_tag` moves to the next tag, opener or closer, and reports whether there is one |
| Markup.TagProcessor.SetBookmark | helper.php:80 | `set_bookmark` succeeds exactly when there is a current tag and the name exists or the bookmark limit is not reached; it records the current position |
| Markup.TagProcessor.Seek | helper.php:97 | `seek` succeeds exactly when the bookmark exists and the seek budget is not spent; it then returns the cursor to the bookmarked tag |
| Markup.TagProcessor.SetAttribute | helper.php:158-171 | writes the attribute of the current tag only |
| Markup.TagProcessor.SetMetaAttribute | helper.php:109 | writes the `data-od-` prefixed attribute of the current tag only |
| Visitor.IsCandidate | helper.php:51-62 | a tag is visited further exactly when it is named IMG or VIDEO and its `width` and `height` are not both valid dimensions |
| Visitor.CandidateAt | helper.php:51-62 | there is a current tag, and it is a candidate by `IsCandidate`; `VisitExit` goes past eligibility exactly when this holds |
| Visitor.NeedsLookahead | helper.php:75-77 | the `elseif` branch: the `src` is not a string and the tag is named VIDEO, so the sources come from the SOURCE lookahead |
| Visitor.SourceUrl | helper.php:86-90 | a SOURCE tag contributes its `src` when that is a string, and nothing otherwise |
| Visitor.VideoSources | helper.php:85-95 | the lookahead's collection: `SourceUrl` of each tag up to the first VIDEO-named tag or the end; `VideoSourcesAreSourceUrls` restates it as a filter |
| Visitor.PrimarySources | helper.php:73-101 | the string `src` alone; otherwise, for a VIDEO, the lookahead's collection; otherwise nothing |
| Visitor.SrcsetSource | helper.php:102-107 | an IMG's string `srcset`, which comes last; nothing for a VIDEO or a non-string `srcset` |
| Visitor.Sources | helper.php:73-107 | the ordered list that is hashed: the primary sources followed by the `srcset` |
| Visitor.LookaheadEnd | helper.php:85-95 | the lookahead's stopping index lies between its start and the end of the stream |
| Visitor.Present | helper.php:115-130 | dropping the `null` entries keeps exactly the stored records and never adds any |
| Visitor.Unanimous | helper.php:145-150 | every stored record equals the first one, compared as whole records |
| Visitor.Consensus | helper.php:132-155 | the record to apply: at least one stored record, all identical, with the current hash; `ConsensusMeaning` states both directions |
| Visitor.AllEqualTo | helper.php:145-150 | the early-return `foreach` reports agreement exactly when every remaining record is identical to the first |
| Visitor.VideoStyle | helper.php:164-171 | `height: auto; width: 100%; aspect-ratio: W / H;` with the decimal width and height, followed by the old style when it is a string |
| Visitor.WithDimensions | helper.php:157-172 | writes the decimal width and height; for a VIDEO, `style` becomes the aspect-ratio prefix followed by the old string style; an IMG keeps its `style`; nothing else changes |
| Visitor.Resolved | helper.php:157-172 | with consensus the agreed dimensions are written, and without it the tag is unchanged |
| Visitor.Annotated | helper.php:108-172 | the hash stamp of the sources, then `Resolved` with the consensus for that hash; `AnnotatedWrites` and `AgreedDimensionsWritten` state what it writes |
| Visitor.VisitorContext.StoredFor | helper.php:113 | the stored records for an xpath, empty when the xpath was never measured |
| Visitor.CollectExit | helper.php:73-107 | source collection ends in a failed bookmark, a failed seek, or the source list `Sources` |
| Visitor.VisitExit | helper.php:51-107 | a visit goes past eligibility exactly when the tag is an IMG/VIDEO whose width and height are not both valid, and when it collects sources they are `Sources` |
| Visitor.VisitorContext.TrackTag | helper.php:69 | `track_tag` sets the tracked flag |
| Visitor.ScanVideoSources | helper.php:85-95 | the lookahead changes only the cursor, collects `VideoSources` (SOURCE `src` strings up to the first VIDEO-named tag), and stops at `LookaheadEnd` |
| Visitor.CollectSources | helper.php:73-107 | the source list is `[src]` if `src` is a string; otherwise, for a VIDEO, the lookahead result, with the cursor returned to the VIDEO; then an IMG's string `srcset`. A failed bookmark or seek is reported, and the cursor, bookmarks and seek budget are stated for each outcome |
| Visitor.StampAndResolve | helper.php:108-172 | the current tag becomes `Annotated`: the hash stamp, then the agreed dimensions when `Consensus` holds |
| Visitor.VisitTag | helper.php:47-173 | tracked exactly when eligible; tags, cursor, bookmarks and seek budget after the visit are stated per `VisitExit` outcome: nothing changes for an ineligible tag, only tracking (and the cursor and bookmark on a failed seek) for an aborted lookahead, and the `Annotated` tag otherwise |
| VisitorProperties.LookaheadStopsAtFirstVideo | helper.php:85-95 | no tag before the lookahead's end is named VIDEO, and the tag at the end, if any, is |
| VisitorProperties.VideoSourcesAreSourceUrls | helper.php:85-95 | the lookahead collects exactly the string `src`s of the SOURCE tags between the VIDEO and its stopping point, in order |
| VisitorProperties.ConsensusMeaning | helper.php:132-155 | consensus on `r` holds exactly when `r` is stored, carries the current hash, and every stored record equals `r` |
| VisitorProperties.DisagreementBlocksConsensus | helper.php:145-150 | two different stored records (width, height or srcHash) block consensus whatever the hash |
| VisitorProperties.StaleRecordBlocksConsensus | helper.php:152-155 | a stored record with another source hash blocks consensus |
| VisitorProperties.NoRecordsNoDimensions | helper.php:132-135 | with no non-null record the tag only gets the hash stamp |
| VisitorProperties.AnnotatedWrites | helper.php:108-172 | the hash stamp is always written; only the stamp, `width`, `height` and (VIDEO only) `style` may change |
| VisitorProperties.AgreedDimensionsWritten | helper.php:157-172 | on consensus, `width`/`height` are the agreed values in decimal, and a VIDEO's `style` is the aspect-ratio style followed by its old style |
| VisitorProperties.AgreedTagIsSettled | helper.php:55-62 | a tag that received dimensions is no longer eligible, so visiting it again changes and tracks nothing |
| VisitorProperties.StaleSourcesNeverApplied | helper.php:152-155 | if the hash separates source lists, records captured with other sources never change `width`, `height` or `style` |
| VisitorProperties.VideoWithThreeSources | helper.php:77-101 | a VIDEO without `src` and SOURCE children x, y, z has the source list `[x, y, z]`, and the lookahead stops at its closer |
| VisitorProperties.ImageWithAgreeingRecords | helper.php:145-159 | an IMG with `src="a.jpg"` and two identical records 800x600 for that source (plus a null one) gets `width="800"` and `height="600"` |
| Schema.AddElementItemSchemaProperties | helper.php:201-227 | a non-array input becomes an empty array; every other key is kept unchanged; `intrinsicDimensions` is set to the record schema |
| Schema.AddElementItemSchemaPropertiesIdempotent | helper.php:201-227 | applying the filter to its own output changes nothing |
| Schema.SchemaDeclaresRecordFields | helper.php:206-225 | the schema declares exactly `width`, `height` and `srcHash`, all required |

## Left out

- detect.js (the browser capture agent) is not part of this model. It is DOM queries and `load`/`loadedmetadata` listeners; only the record it produces appears here, as `Visitor.Record`.
- od-intrinsic-dimensions.php is not part of this model. It is plugin bootstrap: hook registration and a version comparison against the host plugin.
- `odid_register_tag_visitor` and `odid_filter_extension_module_urls` (helper.php:22-24, 184-190) are registry and hook wiring. The URL they build comes from WordPress functions outside this repository.
- MD5 and JSON encoding (helper.php:108) are a function parameter. Whether different source lists get different hashes (for example `[A, B]` and `[B, A]`) depends on md5, so `StaleSourcesNeverApplied` takes as its hypothesis that the captured sources hash differently from the current ones.
- The internals of the tag processor, the visitor context and the URL-metric store are not modelled. That covers lexical attribute updates, case folding of attribute names, how xpaths are computed, and how records are stored. The processor is reduced to the behaviour listed above; each tag carries its xpath; the store is a map from xpath to a sequence of optional records.
- Visitor.Record: the model does not capture three behaviours of the stored array.
  - PHP's `!==` on arrays (helper.php:147) also compares key order and value types. Two arrays with the same values in a different key order, or `800` against `800.0`, block consensus in PHP. `Visitor.Unanimous` compares them as equal datatype values and applies them. detect.js always sends the keys in one order and as integers, so this only matters for records that another writer stored.
  - `width` and `height` are unbounded `nat`s. PHP's `(string)` and `%d` (helper.php:158-159, 164) work on 64-bit integers, and negative values are not modelled.
- Visitor.CollectSources: the source's early `return`s inside the collection are modelled as a returned `Exit` value. `VisitTag` returns on it at the same points.
- Schema.AddElementItemSchemaProperties: a PHP array is modelled as a map from string keys. The position of `intrinsicDimensions` among the keys, and integer keys, are not modelled.
