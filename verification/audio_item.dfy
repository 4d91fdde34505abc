/**
 * AudioItem: the sibling queries over its parent's audio parts, and the
 * `process` stub that changes nothing.
 */
module AudioItems {
  import opened Records
  import opened PartQueries
  import RequestItems

  /** `getAudioItemParts`: the parent's parts spoken by this item's voice, or none without a parent. */
  function GetAudioItemParts(w: World, item: AudioItem): (r: seq<AudioItemPart>)
    ensures item.requestItemId !in w.requestItems ==> r == []
    ensures item.requestItemId in w.requestItems ==>
      forall p :: p in r <==> p in w.audioItemParts && p.requestItemId == item.requestItemId && p.voice == item.voice
  {
    if item.requestItemId in w.requestItems then
      WhereMembers(w.audioItemParts, ByVoice(item.requestItemId, item.voice));
      Where(w.audioItemParts, ByVoice(item.requestItemId, item.voice))
    else []
  }

  /**
   * `haveAudioItemPartsBeenProcessed`: despite its name, true when some
   * part of this voice is not yet Processed (a null status does not count).
   */
  function HaveAudioItemPartsBeenProcessed(w: World, item: AudioItem): (r: bool)
    ensures r <==>
      (item.requestItemId in w.requestItems
       && exists p :: (p in w.audioItemParts && p.requestItemId == item.requestItemId
                       && p.voice == item.voice && IsUnprocessed(p)))
  {
    var parts := GetAudioItemParts(w, item);
    assert forall p :: p in parts <==> exists k :: 0 <= k < |parts| && parts[k] == p;
    item.requestItemId in w.requestItems && CountUnprocessed(parts) > 0
  }

  /** Without a parent, or without parts of this voice, the answer is false. */
  lemma NoPartsNotProcessed(w: World, item: AudioItem)
    requires item.requestItemId !in w.requestItems
      || forall p :: p in w.audioItemParts ==> !(p.requestItemId == item.requestItemId && p.voice == item.voice)
    ensures !HaveAudioItemPartsBeenProcessed(w, item)
  {
  }

  /** A part reported as unprocessed has a status other than Processed. */
  lemma ReportedPartIsUnprocessed(w: World, item: AudioItem)
    requires HaveAudioItemPartsBeenProcessed(w, item)
    ensures exists p :: p in GetAudioItemParts(w, item) && p.status.Some? && p.status.value != "Processed"
  {
  }

  /** Parts created by `process` have a null status. */
  lemma {:induction false} CreatedPartsHaveNullStatus(id: nat, n: nat, voices: seq<string>)
    ensures forall p :: p in RequestItems.AudioPartsFor(id, n, voices) ==> p.status.None?
  {
    if n > 0 {
      CreatedPartsHaveNullStatus(id, n - 1, voices);
    }
  }

  /**
   * So when the only parts of a request are the ones `process` created, the
   * query is false for every audio item of that request: the freshly
   * created parts are not reported as unprocessed.
   */
  lemma FalseRightAfterProcess(w: World, item: AudioItem, n: nat, voices: seq<string>)
    requires forall p :: p in w.audioItemParts && p.requestItemId == item.requestItemId ==>
      p in RequestItems.AudioPartsFor(item.requestItemId, n, voices)
    ensures !HaveAudioItemPartsBeenProcessed(w, item)
  {
    CreatedPartsHaveNullStatus(item.requestItemId, n, voices);
  }

  /** `process`: both branches of the stub are empty, so nothing changes. */
  function Process(w: World, item: AudioItem): (r: World)
    ensures r == w
  {
    if HaveAudioItemPartsBeenProcessed(w, item) then w else w
  }
}
