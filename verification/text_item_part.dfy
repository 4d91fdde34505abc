/**
 * TextItemPart: its mass-assignable fields and the query for the audio
 * parts of its chunk.
 */
module TextItemParts {
  import opened Records
  import opened PartQueries
  import RequestItems

  /** `$fillable` */
  const Fillable: set<string> := {"request_item_id", "item_index", "item_content"}

  /** Mass assignment keeps the fillable attributes and drops the rest. */
  function Fill(attributes: map<string, string>): (r: map<string, string>)
    ensures r.Keys == attributes.Keys * Fillable
    ensures forall k :: k in r ==> r[k] == attributes[k]
  {
    map k | k in attributes && k in Fillable :: attributes[k]
  }

  /** The three columns `process` writes all survive mass assignment. */
  lemma ProcessColumnsFillable(id: string, index: string, content: string)
    ensures Fill(map["request_item_id" := id, "item_index" := index, "item_content" := content])
      == map["request_item_id" := id, "item_index" := index, "item_content" := content]
  {
  }

  /** `getAudioItemParts`: the parent's parts for this chunk index, every voice included. */
  function GetAudioItemParts(w: World, part: TextItemPart): (r: seq<AudioItemPart>)
    ensures part.requestItemId !in w.requestItems ==> r == []
    ensures part.requestItemId in w.requestItems ==>
      forall p :: p in r <==>
        (p in w.audioItemParts && p.requestItemId == part.requestItemId && p.itemIndex == part.itemIndex)
  {
    if part.requestItemId in w.requestItems then
      WhereMembers(w.audioItemParts, ByIndex(part.requestItemId, part.itemIndex));
      Where(w.audioItemParts, ByIndex(part.requestItemId, part.itemIndex))
    else []
  }

  /** Chunks at or past `n` have no parts among the first `n` chunks' parts. */
  lemma {:induction false} LaterIndexAbsent(id: nat, n: nat, voices: seq<string>, index: nat)
    requires n <= index
    ensures Where(RequestItems.AudioPartsFor(id, n, voices), ByIndex(id, index)) == []
  {
    if n > 0 {
      LaterIndexAbsent(id, n - 1, voices, index);
      WhereNone(RequestItems.PartsForIndex(id, n - 1, voices), ByIndex(id, index));
      WhereAppend(RequestItems.AudioPartsFor(id, n - 1, voices), RequestItems.PartsForIndex(id, n - 1, voices), ByIndex(id, index));
    }
  }

  /** Among the parts `process` creates, chunk `index` has exactly one part per voice, in voice order. */
  lemma {:induction false} IndexPartsOfProcess(id: nat, n: nat, voices: seq<string>, index: nat)
    requires index < n
    ensures Where(RequestItems.AudioPartsFor(id, n, voices), ByIndex(id, index))
      == RequestItems.PartsForIndex(id, index, voices)
  {
    var before := RequestItems.AudioPartsFor(id, n - 1, voices);
    var last := RequestItems.PartsForIndex(id, n - 1, voices);
    assert RequestItems.AudioPartsFor(id, n, voices) == before + last;
    WhereAppend(before, last, ByIndex(id, index));
    if index == n - 1 {
      LaterIndexAbsent(id, n - 1, voices, index);
      WhereAll(last, ByIndex(id, index));
    } else {
      IndexPartsOfProcess(id, n - 1, voices, index);
      WhereNone(last, ByIndex(id, index));
    }
  }

  /**
   * After `process` has added its parts to a table that held none for the
   * request, each text part's query returns one part per requested voice:
   * the query does not filter by voice.
   */
  lemma PartsAfterProcess(w: World, base: seq<AudioItemPart>, n: nat, voices: seq<string>, part: TextItemPart)
    requires part.requestItemId in w.requestItems && part.itemIndex < n
    requires w.audioItemParts == base + RequestItems.AudioPartsFor(part.requestItemId, n, voices)
    requires forall p :: p in base ==> p.requestItemId != part.requestItemId
    ensures GetAudioItemParts(w, part) == RequestItems.PartsForIndex(part.requestItemId, part.itemIndex, voices)
  {
    var id := part.requestItemId;
    WhereAppend(base, RequestItems.AudioPartsFor(id, n, voices), ByIndex(id, part.itemIndex));
    WhereNone(base, ByIndex(id, part.itemIndex));
    IndexPartsOfProcess(id, n, voices, part.itemIndex);
  }
}
