/**
 * The `audioItemParts()->where(...)->get()` queries of AudioItem and
 * TextItemPart: a filter over the audio_item_parts table that keeps table
 * order.
 */
module PartQueries {
  import opened Records

  /** The two `where` clauses in use: same request and voice, or same request and chunk index. */
  datatype Selector = ByVoice(requestItemId: nat, voice: string) | ByIndex(requestItemId: nat, itemIndex: nat)

  predicate Selects(s: Selector, p: AudioItemPart) {
    match s
    case ByVoice(id, voice) => p.requestItemId == id && p.voice == voice
    case ByIndex(id, index) => p.requestItemId == id && p.itemIndex == index
  }

  /** The selected rows, in table order. */
  function Where(parts: seq<AudioItemPart>, s: Selector): (r: seq<AudioItemPart>)
    ensures |r| <= |parts|
    ensures forall k :: 0 <= k < |r| ==> Selects(s, r[k])
  {
    if |parts| == 0 then []
    else
      var last := parts[|parts| - 1];
      Where(parts[..|parts| - 1], s) + (if Selects(s, last) then [last] else [])
  }

  /** A row is returned exactly when it is in the table and selected. */
  lemma {:induction false} WhereMembers(parts: seq<AudioItemPart>, s: Selector)
    ensures forall p :: p in Where(parts, s) <==> p in parts && Selects(s, p)
  {
    if |parts| > 0 {
      var init := parts[..|parts| - 1];
      WhereMembers(init, s);
      assert parts == init + [parts[|parts| - 1]];
    }
  }

  /** Filtering a concatenation filters each half. */
  lemma {:induction false} WhereAppend(a: seq<AudioItemPart>, b: seq<AudioItemPart>, s: Selector)
    ensures Where(a + b, s) == Where(a, s) + Where(b, s)
    decreases |b|
  {
    if |b| == 0 {
      assert a + b == a;
    } else {
      assert (a + b)[..|a + b| - 1] == a + b[..|b| - 1];
      assert (a + b)[|a + b| - 1] == b[|b| - 1];
      WhereAppend(a, b[..|b| - 1], s);
    }
  }

  /** Rows that are all selected come back unchanged. */
  lemma {:induction false} WhereAll(parts: seq<AudioItemPart>, s: Selector)
    requires forall k :: 0 <= k < |parts| ==> Selects(s, parts[k])
    ensures Where(parts, s) == parts
  {
    if |parts| > 0 {
      WhereAll(parts[..|parts| - 1], s);
      assert parts[..|parts| - 1] + [parts[|parts| - 1]] == parts;
    }
  }

  /** Rows none of which is selected give nothing. */
  lemma {:induction false} WhereNone(parts: seq<AudioItemPart>, s: Selector)
    requires forall k :: 0 <= k < |parts| ==> !Selects(s, parts[k])
    ensures Where(parts, s) == []
  {
    if |parts| > 0 {
      WhereNone(parts[..|parts| - 1], s);
    }
  }

  /**
   * `where('status', '!=', 'Processed')`: SQL's `!=` is never true of NULL,
   * so a part whose status is null does not count as unprocessed.
   */
  predicate IsUnprocessed(p: AudioItemPart) {
    p.status.Some? && p.status.value != StatusName(Processed)
  }

  /** The count of unprocessed rows, as `->count()` returns it. */
  function CountUnprocessed(parts: seq<AudioItemPart>): (n: nat)
    ensures n <= |parts|
    ensures n > 0 <==> exists k :: 0 <= k < |parts| && IsUnprocessed(parts[k])
  {
    if |parts| == 0 then 0
    else
      var last := parts[|parts| - 1];
      var init := parts[..|parts| - 1];
      assert forall k :: 0 <= k < |init| ==> init[k] == parts[k];
      CountUnprocessed(init) + (if IsUnprocessed(last) then 1 else 0)
  }
}
