/**
 * Context assembly: the retrieved matches turned into one text block,
 * in the order the index returned them (route.ts, lines 39-41).
 */
module ContextAssembly {
  import opened Wrappers
  import opened JsStrings

  /**
   * One match of an index query: its id, its similarity score (a float the
   * handler never reads) and its metadata, `None` when the index sent none.
   * Metadata values are the strings the ingestion side stores.
   */
  datatype Match = Match(id: string, score: real, metadata: Option<map<string, string>>)

  /** The metadata key holding a chunk's text. */
  const TextKey := "text"

  /** The delimiter placed between two matches' texts. */
  const ContextSeparator := "\n\n---\n\n"

  /**
   * `match.metadata?.text || ''`: the chunk text, or `''` when the metadata or
   * its `text` entry is missing. An empty string is falsy and is replaced by
   * `''`, which is itself.
   */
  function MatchText(m: Match): string {
    if m.metadata.Some? && TextKey in m.metadata.value then m.metadata.value[TextKey] else ""
  }

  /** `matches.map(...)`: one text per match, position for position. */
  function MatchTexts(matches: seq<Match>): seq<string> {
    seq(|matches|, i requires 0 <= i < |matches| => MatchText(matches[i]))
  }

  /** The context block: the matches' texts joined by the separator. */
  function AssembleContext(matches: seq<Match>): string {
    Join(MatchTexts(matches), ContextSeparator)
  }

  /** No matches give the empty context. */
  lemma AssembleEmpty()
    ensures AssembleContext([]) == ""
  {
  }

  /** `n >= 1` matches give their texts' total length plus exactly `n - 1` separators. */
  lemma AssembleLength(matches: seq<Match>)
    requires |matches| > 0
    ensures |AssembleContext(matches)| == TotalLength(MatchTexts(matches)) + (|matches| - 1) * |ContextSeparator|
  {
    JoinLength(MatchTexts(matches), ContextSeparator);
  }

  /**
   * Match `k`'s text appears at its offset in the context, the `k`-th segment,
   * followed by a separator unless it is the last match.
   */
  lemma AssembleSegmentAt(matches: seq<Match>, k: nat)
    requires k < |matches|
    ensures var texts := MatchTexts(matches);
      var o := PieceOffset(texts, ContextSeparator, k);
      var c := AssembleContext(matches);
      var e := o + |MatchText(matches[k])|;
      texts[k] == MatchText(matches[k])
      && e <= |c| && c[o..e] == MatchText(matches[k])
      && (k + 1 < |matches| ==> e + |ContextSeparator| <= |c| && c[e..e + |ContextSeparator|] == ContextSeparator)
  {
    JoinPieceAt(MatchTexts(matches), ContextSeparator, k);
  }

  /** Assembling two non-empty runs of matches keeps both in order with one separator between. */
  lemma AssembleAppend(a: seq<Match>, b: seq<Match>)
    requires |a| > 0 && |b| > 0
    ensures AssembleContext(a + b) == AssembleContext(a) + ContextSeparator + AssembleContext(b)
  {
    assert MatchTexts(a + b) == MatchTexts(a) + MatchTexts(b);
    JoinAppend(MatchTexts(a), MatchTexts(b), ContextSeparator);
  }

  /**
   * A match in the middle whose text is `''` (no metadata, no `text` entry, or
   * an empty one) keeps its position: it shows as two separators in a row.
   */
  lemma MissingTextKeepsPosition(matches: seq<Match>, k: nat)
    requires 0 < k < |matches| - 1
    requires MatchText(matches[k]) == ""
    ensures AssembleContext(matches)
         == AssembleContext(matches[..k]) + ContextSeparator + ContextSeparator + AssembleContext(matches[k + 1..])
  {
    assert matches == matches[..k] + ([matches[k]] + matches[k + 1..]);
    AssembleAppend([matches[k]], matches[k + 1..]);
    AssembleAppend(matches[..k], [matches[k]] + matches[k + 1..]);
    assert AssembleContext([matches[k]]) == "";
  }

  /** Equal matches are not merged: a repeated match contributes its text twice. */
  lemma NoDeduplication(m: Match)
    ensures AssembleContext([m, m]) == MatchText(m) + ContextSeparator + MatchText(m)
  {
    AssembleAppend([m], [m]);
    assert [m] + [m] == [m, m];
  }

  /** Two retrieved chunks with known texts give the exact expected block. */
  lemma TwoChunkScenario()
    ensures AssembleContext([
      Match("a", 0.9, Some(map[TextKey := "Refunds within 30 days."])),
      Match("b", 0.8, Some(map[TextKey := "Contact support to start a refund."]))])
      == "Refunds within 30 days." + "\n\n---\n\n" + "Contact support to start a refund."
  {
    var m1 := Match("a", 0.9, Some(map[TextKey := "Refunds within 30 days."]));
    var m2 := Match("b", 0.8, Some(map[TextKey := "Contact support to start a refund."]));
    var texts := ["Refunds within 30 days.", "Contact support to start a refund."];
    assert MatchTexts([m1, m2]) == texts;
    assert texts[1..] == [texts[1]];
    assert Join(texts, ContextSeparator) == texts[0] + ContextSeparator + texts[1];
  }
}
