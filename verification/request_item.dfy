/**
 * The RequestItem aggregate: its attribute accessors and model hooks, the
 * ledger-and-status helper, `createItem` and the `process` fan-out that
 * turns one request into text parts, audio parts, audio items and jobs.
 */
module RequestItems {
  import opened Wrappers
  import opened PhpStrings
  import opened UniqueId
  import opened StoragePaths
  import OutputFormat
  import opened RequestItemLog
  import opened Records
  import TextCleaner
  import opened VoiceKeys

  // ---------------------------------------------------------------------
  // Attribute accessors and hooks

  /** `generateUniqueID`: keeps a truthy id and otherwise draws one from `seed`. */
  function EnsureUniqueId(item: RequestItem, seed: Seed): (r: RequestItem)
    ensures Truthy(r.uniqueId)
    ensures Truthy(item.uniqueId) ==> r == item
    ensures !Truthy(item.uniqueId) ==> r.uniqueId == Some(GenerateId(seed))
    ensures r == item.(uniqueId := r.uniqueId)
  {
    item.(uniqueId := Some(EnsureId(item.uniqueId, seed)))
  }

  /** `setUniqueIdAttribute`: the supplied value is ignored; the id is only ever generated. */
  function SetUniqueId(item: RequestItem, value: Option<string>, seed: Seed): (r: RequestItem)
    ensures Truthy(item.uniqueId) ==> r == item
    ensures !Truthy(item.uniqueId) ==> r.uniqueId == Some(GenerateId(seed))
    ensures r == item.(uniqueId := r.uniqueId)
  {
    EnsureUniqueId(item, seed)
  }

  /** `getUniqueIdAttribute`: the item after generation and the id it now holds. */
  function GetUniqueId(item: RequestItem, seed: Seed): (r: (RequestItem, string))
    ensures Truthy(Some(r.1)) && r.0.uniqueId == Some(r.1)
    ensures Truthy(item.uniqueId) ==> r == (item, item.uniqueId.value)
  {
    var i := EnsureUniqueId(item, seed);
    (i, i.uniqueId.value)
  }

  /** Whatever value is passed to the setter, the outcome is the same. */
  lemma SetUniqueIdIgnoresValue(item: RequestItem, v1: Option<string>, v2: Option<string>, seed: Seed)
    ensures SetUniqueId(item, v1, seed) == SetUniqueId(item, v2, seed)
  {
  }

  /** Once set, the id no longer depends on the random source. */
  lemma UniqueIdSetOnce(item: RequestItem, s1: Seed, s2: Seed)
    ensures EnsureUniqueId(EnsureUniqueId(item, s1), s2) == EnsureUniqueId(item, s1)
    ensures Truthy(item.uniqueId) ==> EnsureUniqueId(item, s1) == EnsureUniqueId(item, s2)
  {
  }

  /** A generated id is 32 hex digits, or 16 pool characters after the fallback. */
  lemma GeneratedIdShape(item: RequestItem, seed: Seed)
    requires !Truthy(item.uniqueId)
    ensures seed.RandomBytes? ==> IsHexId(EnsureUniqueId(item, seed).uniqueId.value)
    ensures seed.Fallback? ==> IsPoolId(EnsureUniqueId(item, seed).uniqueId.value)
  {
  }

  /** `setOutputNameAttribute`: a truthy name is stored, otherwise the unique id is. */
  function SetOutputName(item: RequestItem, name: Option<string>, seed: Seed): (r: RequestItem)
    ensures Truthy(r.outputName)
    ensures Truthy(name) ==> r == item.(outputName := name)
    ensures !Truthy(name) ==>
      (Truthy(r.uniqueId) && r.outputName == r.uniqueId
       && r == EnsureUniqueId(item, seed).(outputName := r.outputName))
  {
    if Truthy(name) then item.(outputName := name)
    else
      var i := EnsureUniqueId(item, seed);
      i.(outputName := i.uniqueId)
  }

  /** `getOutputNameAttribute`: never falsy, since a falsy name is replaced by the unique id. */
  function GetOutputName(item: RequestItem, seed: Seed): (r: (RequestItem, string))
    ensures Truthy(Some(r.1)) && r.0.outputName == Some(r.1)
    ensures Truthy(item.outputName) ==> r.1 == item.outputName.value
    ensures !Truthy(item.outputName) ==> Some(r.1) == r.0.uniqueId
    ensures r.0.uniqueId == EnsureUniqueId(item, seed).uniqueId
  {
    var i := EnsureUniqueId(item, seed);
    if Truthy(i.outputName) then (i, i.outputName.value)
    else (i.(outputName := i.uniqueId), i.uniqueId.value)
  }

  /** Reading the name back gives the name that was set, or the unique id in its place. */
  lemma OutputNameRoundTrip(item: RequestItem, name: Option<string>, s1: Seed, s2: Seed)
    ensures GetOutputName(SetOutputName(item, name, s1), s2).1
      == if Truthy(name) then name.value else EnsureUniqueId(item, s1).uniqueId.value
  {
  }

  /** `setOutputFormatAttribute`, shared with TTSItem. */
  function SetOutputFormat(item: RequestItem, requested: Option<string>): (r: RequestItem)
    ensures OutputFormat.IsCanonical(r.outputFormat)
    ensures r == item.(outputFormat := r.outputFormat)
  {
    item.(outputFormat := OutputFormat.Normalize(requested))
  }

  /** Setting the format again with the value it holds changes nothing. */
  lemma SetOutputFormatIdempotent(item: RequestItem, requested: Option<string>)
    ensures var once := SetOutputFormat(item, requested);
      SetOutputFormat(once, Some(once.outputFormat)) == once
  {
    OutputFormat.NormalizeIdempotent(requested);
  }

  /**
   * `generateTextFilePath` (run by the saving hook and the text_file
   * getter): only a falsy path is replaced, by the key derived from the
   * unique id, which is generated first if needed.
   */
  function GenerateTextFilePath(item: RequestItem, seed: Seed): (r: RequestItem)
    ensures Truthy(r.textFile)
    ensures Truthy(item.textFile) ==> r == item
    ensures !Truthy(item.textFile) ==>
      (Truthy(r.uniqueId)
       && r.textFile == Some(TextFileKey(r.uniqueId.value))
       && r == EnsureUniqueId(item, seed).(textFile := r.textFile))
  {
    if Truthy(item.textFile) then item
    else
      var i := EnsureUniqueId(item, seed);
      i.(textFile := Some(TextFileKey(i.uniqueId.value)))
  }

  /** Saving twice derives nothing new: an existing key is never overwritten. */
  lemma TextFilePathSetOnce(item: RequestItem, s1: Seed, s2: Seed)
    ensures GenerateTextFilePath(GenerateTextFilePath(item, s1), s2) == GenerateTextFilePath(item, s1)
  {
    TextFileKeyRoundTrip(EnsureUniqueId(item, s1).uniqueId.value);
  }

  /** A derived key names the item's own unique id. */
  lemma DerivedTextFileNamesId(item: RequestItem, seed: Seed)
    requires !Truthy(item.textFile)
    ensures var r := GenerateTextFilePath(item, seed);
      UidOfTextFileKey(r.textFile.value) == r.uniqueId
  {
    TextFileKeyRoundTrip(GenerateTextFilePath(item, seed).uniqueId.value);
  }

  /** `setTextFileAttribute`: the path is stored as given. */
  function SetTextFile(item: RequestItem, path: Option<string>): (r: RequestItem)
    ensures r.textFile == path && r == item.(textFile := path)
  {
    item.(textFile := path)
  }

  /** A path set explicitly survives the saving hook when it is truthy. */
  lemma SavingKeepsSetPath(item: RequestItem, path: Option<string>, seed: Seed)
    requires Truthy(path)
    ensures GenerateTextFilePath(SetTextFile(item, path), seed).textFile == path
  {
  }

  /**
   * The deleting hook, then the row's removal: the text file is deleted
   * from storage when the attribute is truthy. Child rows and every other
   * storage key are left alone.
   */
  function Delete(w: World, id: nat): (r: World)
    requires id in w.requestItems
    ensures r.requestItems == w.requestItems - {id}
    ensures r == w.(storage := r.storage, requestItems := r.requestItems)
    ensures var tf := w.requestItems[id].textFile;
      (Truthy(tf) ==> r.storage == w.storage - {tf.value}) && (!Truthy(tf) ==> r.storage == w.storage)
  {
    var tf := w.requestItems[id].textFile;
    var storage := if Truthy(tf) then w.storage - {tf.value} else w.storage;
    w.(storage := storage, requestItems := w.requestItems - {id})
  }

  /** Deleting an item touches no storage key other than its own text file. */
  lemma DeleteKeepsOtherKeys(w: World, id: nat, key: string)
    requires id in w.requestItems && key in w.storage
    requires !(Truthy(w.requestItems[id].textFile) && key == w.requestItems[id].textFile.value)
    ensures key in Delete(w, id).storage && Delete(w, id).storage[key] == w.storage[key]
  {
  }

  // ---------------------------------------------------------------------
  // updateLogAndStatus

  /** A status argument that is neither null nor "" (which `switch` compares equal to null) nor a status name. */
  predicate IsUnknownStatus(setStatusTo: Option<string>) {
    setStatusTo.Some? && setStatusTo.value != "" && ParseStatus(setStatusTo.value).None?
  }

  function StatusWarning(s: string): string {
    "Can't set status to '" + s + "'"
  }

  /**
   * `updateLogAndStatus`: assigns a valid status, warns about an unknown
   * one, saves, then logs the message under its resolved type.
   */
  function UpdateLogAndStatus(w: World, id: nat, message: string,
                              setStatusTo: Option<string>, logType: Option<string>): (r: World)
    requires id in w.requestItems && IsSaved(w.requestItems[id])
    ensures id in r.requestItems && IsSaved(r.requestItems[id])
    ensures r == w.(requestItems := r.requestItems, ledger := r.ledger)
    ensures r.requestItems == w.requestItems[id := r.requestItems[id]]
    ensures r.requestItems[id] == w.requestItems[id].(status := r.requestItems[id].status)
    ensures setStatusTo.Some? && ParseStatus(setStatusTo.value).Some? ==>
      r.requestItems[id].status == ParseStatus(setStatusTo.value).value
    ensures setStatusTo.None? || ParseStatus(setStatusTo.value).None? ==>
      r.requestItems[id].status == w.requestItems[id].status
    ensures IsUnknownStatus(setStatusTo) ==>
      r.ledger == w.ledger + [LogEntry(id, Warning, StatusWarning(setStatusTo.value)),
                              LogEntry(id, ResolveType(logType), message)]
    ensures !IsUnknownStatus(setStatusTo) ==> r.ledger == w.ledger + [LogEntry(id, ResolveType(logType), message)]
  {
    var item := w.requestItems[id];
    var status :=
      if setStatusTo.Some? && ParseStatus(setStatusTo.value).Some? then ParseStatus(setStatusTo.value).value
      else item.status;
    var warned :=
      if IsUnknownStatus(setStatusTo) then Named(Warning, w.ledger, id, StatusWarning(setStatusTo.value), Stored).ledger
      else w.ledger;
    var logged := Named(ResolveType(logType), warned, id, message, Stored).ledger;
    w.(requestItems := w.requestItems[id := item.(status := status)], ledger := logged)
  }

  /** Exactly one entry carries the message, and a warning precedes it only for an unknown status. */
  lemma UpdateLogAndStatusEntries(w: World, id: nat, message: string,
                                  setStatusTo: Option<string>, logType: Option<string>)
    requires id in w.requestItems && IsSaved(w.requestItems[id])
    ensures var r := UpdateLogAndStatus(w, id, message, setStatusTo, logType);
      |r.ledger| == |w.ledger| + (if IsUnknownStatus(setStatusTo) then 2 else 1)
      && r.ledger[..|w.ledger|] == w.ledger
      && r.ledger[|r.ledger| - 1] == LogEntry(id, ResolveType(logType), message)
  {
  }

  /** Every status name is accepted and assigned without a warning. */
  lemma ValidStatusAssigned(w: World, id: nat, message: string, s: Status, logType: Option<string>)
    requires id in w.requestItems && IsSaved(w.requestItems[id])
    ensures var r := UpdateLogAndStatus(w, id, message, Some(StatusName(s)), logType);
      r.requestItems[id].status == s && |r.ledger| == |w.ledger| + 1
  {
    StatusNameRoundTrip(s);
  }

  // ---------------------------------------------------------------------
  // process: the rows and jobs it creates

  /** One TextItemPart per chunk, indexed from 0. */
  function TextPartsFor(id: nat, parts: seq<string>): seq<TextItemPart> {
    seq(|parts|, i requires 0 <= i < |parts| => TextItemPart(id, i, parts[i]))
  }

  /** The AudioItemParts of chunk `index`, one per voice in the item's order; their status is null. */
  function PartsForIndex(id: nat, index: nat, voices: seq<string>): seq<AudioItemPart> {
    seq(|voices|, j requires 0 <= j < |voices| => AudioItemPart(id, index, voices[j], None))
  }

  /** The AudioItemParts of the first `n` chunks, chunk by chunk. */
  function AudioPartsFor(id: nat, n: nat, voices: seq<string>): seq<AudioItemPart> {
    if n == 0 then [] else AudioPartsFor(id, n - 1, voices) + PartsForIndex(id, n - 1, voices)
  }

  /** One AudioItem per voice. */
  function AudioItemsFor(id: nat, voices: seq<string>): seq<AudioItem> {
    seq(|voices|, j requires 0 <= j < |voices| => AudioItem(id, voices[j]))
  }

  /** A GenerateAudioItemPartJob per part, without delay. */
  function GenerateJobs(parts: seq<AudioItemPart>): seq<Dispatch> {
    seq(|parts|, k requires 0 <= k < |parts| => Dispatch(GenerateAudioItemPart(parts[k]), 0))
  }

  /** A FinalizeAudioItemJob per audio item, each with the same delay. */
  function FinalizeJobs(items: seq<AudioItem>, delay: nat): seq<Dispatch> {
    seq(|items|, k requires 0 <= k < |items| => Dispatch(FinalizeAudioItem(items[k]), delay))
  }

  /** A nonzero multiple of m is at least m away from zero. */
  lemma MultipleBounds(a: int, m: int)
    requires m > 0
    ensures a >= 1 ==> a * m >= m
    ensures a <= -1 ==> a * m <= -m
  {
    if a >= 1 {
      assert a * m == (a - 1) * m + m;
    } else if a <= -1 {
      assert a * m == (a + 1) * m - m;
    }
  }

  /** Euclidean division recovers the quotient and remainder a position was built from. */
  lemma DivModOf(k: int, q: int, m: int, j: int)
    requires 0 < m && 0 <= j < m && k == q * m + j
    ensures k / m == q && k % m == j
  {
    var d, r := k / m, k % m;
    assert d * m + r == k;
    assert (q - d) * m == r - j;
    MultipleBounds(q - d, m);
  }

  /**
   * The audio parts are laid out index-major, voice-minor: position
   * `k` holds chunk `k / |voices|` spoken by voice `k % |voices|`, so each
   * (chunk, voice position) pair occurs exactly once.
   */
  lemma {:induction false} AudioPartsLayout(id: nat, n: nat, voices: seq<string>)
    ensures |AudioPartsFor(id, n, voices)| == n * |voices|
    ensures forall k :: 0 <= k < |AudioPartsFor(id, n, voices)| ==>
      AudioPartsFor(id, n, voices)[k] == AudioItemPart(id, k / |voices|, voices[k % |voices|], None)
  {
    if n > 0 {
      AudioPartsLayout(id, n - 1, voices);
      var before := AudioPartsFor(id, n - 1, voices);
      var all := AudioPartsFor(id, n, voices);
      assert |before| == (n - 1) * |voices|;
      forall k | 0 <= k < |all|
        ensures all[k] == AudioItemPart(id, k / |voices|, voices[k % |voices|], None)
      {
        if k >= |before| {
          DivModOf(k, n - 1, |voices|, k - |before|);
        }
      }
    }
  }

  /**
   * The queue a successful `process` leaves (its last ensures): after the
   * earlier jobs come the part jobs, undelayed, chunk by chunk and voice by
   * voice, then one finalize job per voice, each delayed five seconds per chunk.
   */
  lemma ProcessQueueLayout(q0: seq<Dispatch>, q: seq<Dispatch>, id: nat, n: nat, voices: seq<string>)
    requires q == q0 + GenerateJobs(AudioPartsFor(id, n, voices)) + FinalizeJobs(AudioItemsFor(id, voices), 5 * n)
    ensures |q| == |q0| + n * |voices| + |voices| && q[..|q0|] == q0
    ensures forall k :: 0 <= k < n * |voices| ==>
      q[|q0| + k] == Dispatch(GenerateAudioItemPart(AudioItemPart(id, k / |voices|, voices[k % |voices|], None)), 0)
    ensures forall j :: 0 <= j < |voices| ==>
      q[|q0| + n * |voices| + j] == Dispatch(FinalizeAudioItem(AudioItem(id, voices[j])), 5 * n)
  {
    AudioPartsLayout(id, n, voices);
    var parts := AudioPartsFor(id, n, voices);
    forall k | 0 <= k < n * |voices|
      ensures q[|q0| + k] == Dispatch(GenerateAudioItemPart(AudioItemPart(id, k / |voices|, voices[k % |voices|], None)), 0)
    {
      assert q[|q0| + k] == GenerateJobs(parts)[k];
    }
    forall j | 0 <= j < |voices|
      ensures q[|q0| + n * |voices| + j] == Dispatch(FinalizeAudioItem(AudioItem(id, voices[j])), 5 * n)
    {
      assert q[|q0| + n * |voices| + j] == FinalizeJobs(AudioItemsFor(id, voices), 5 * n)[j];
    }
  }

  // ---------------------------------------------------------------------
  // process

  const ProcessInitiated := "Process RequestItem initiated..."
  const TextEmpty := "Item text is empty"
  const SplitFailed := "Item text could not be split."

  /** How `process` ended: returned a value, or the storage read threw (no object under the key). */
  datatype ProcessOutcome = Returned(result: bool) | Raised

  /** The ledger entry every run starts with. */
  function InitiatedEntry(id: nat): LogEntry {
    LogEntry(id, Log, ProcessInitiated)
  }

  /** The children, queue and every other row are as they were. */
  predicate NoChildrenCreated(w: World, r: World) {
    r.textItemParts == w.textItemParts && r.audioItemParts == w.audioItemParts
    && r.audioItems == w.audioItems && r.queue == w.queue
  }

  /** The chunk loop of `process`: a TextItemPart per chunk and, nested, an AudioItemPart and its job per voice. */
  method CreateParts(id: nat, parts: seq<string>, voices: seq<string>)
    returns (texts: seq<TextItemPart>, audios: seq<AudioItemPart>, jobs: seq<Dispatch>)
    ensures texts == TextPartsFor(id, parts)
    ensures audios == AudioPartsFor(id, |parts|, voices)
    ensures jobs == GenerateJobs(audios)
  {
    texts, audios, jobs := [], [], [];
    var index := 0;
    while index < |parts|
      invariant 0 <= index <= |parts|
      invariant texts == TextPartsFor(id, parts[..index])
      invariant audios == AudioPartsFor(id, index, voices)
      invariant jobs == GenerateJobs(audios)
    {
      assert TextPartsFor(id, parts[..index + 1]) == TextPartsFor(id, parts[..index]) + [TextItemPart(id, index, parts[index])];
      texts := texts + [TextItemPart(id, index, parts[index])];
      var v := 0;
      while v < |voices|
        invariant 0 <= v <= |voices|
        invariant audios == AudioPartsFor(id, index, voices) + PartsForIndex(id, index, voices[..v])
        invariant jobs == GenerateJobs(audios)
      {
        var part := AudioItemPart(id, index, voices[v], None);
        assert PartsForIndex(id, index, voices[..v + 1]) == PartsForIndex(id, index, voices[..v]) + [part];
        assert GenerateJobs(audios + [part]) == GenerateJobs(audios) + [Dispatch(GenerateAudioItemPart(part), 0)];
        audios := audios + [part];
        jobs := jobs + [Dispatch(GenerateAudioItemPart(part), 0)];
        v := v + 1;
      }
      assert voices[..v] == voices;
      index := index + 1;
    }
    assert parts[..index] == parts;
  }

  /** The voice loop of `process`: an AudioItem and its delayed finalize job per voice. */
  method CreateAudioItems(id: nat, voices: seq<string>, delay: nat)
    returns (items: seq<AudioItem>, jobs: seq<Dispatch>)
    ensures items == AudioItemsFor(id, voices)
    ensures jobs == FinalizeJobs(items, delay)
  {
    items, jobs := [], [];
    var v := 0;
    while v < |voices|
      invariant 0 <= v <= |voices|
      invariant items == AudioItemsFor(id, voices[..v])
      invariant jobs == FinalizeJobs(items, delay)
    {
      var audioItem := AudioItem(id, voices[v]);
      assert AudioItemsFor(id, voices[..v + 1]) == AudioItemsFor(id, voices[..v]) + [audioItem];
      assert FinalizeJobs(items + [audioItem], delay) == FinalizeJobs(items, delay) + [Dispatch(FinalizeAudioItem(audioItem), delay)];
      items := items + [audioItem];
      jobs := jobs + [Dispatch(FinalizeAudioItem(audioItem), delay)];
      v := v + 1;
    }
    assert voices[..v] == voices;
  }

  /** `process`'s first call: status Pending and the initiated entry. */
  lemma InitiateStep(w: World, id: nat)
    requires id in w.requestItems && IsSaved(w.requestItems[id])
    ensures UpdateLogAndStatus(w, id, ProcessInitiated, Some(StatusName(Pending)), None)
      == w.(requestItems := w.requestItems[id := w.requestItems[id].(status := Pending)],
            ledger := w.ledger + [InitiatedEntry(id)])
  {
  }

  /** The empty-text call: status Failed and an error entry. */
  lemma EmptyTextStep(w: World, id: nat)
    requires id in w.requestItems && IsSaved(w.requestItems[id])
    ensures UpdateLogAndStatus(w, id, TextEmpty, Some(StatusName(Failed)), Some("error"))
      == w.(requestItems := w.requestItems[id := w.requestItems[id].(status := Failed)],
            ledger := w.ledger + [LogEntry(id, Error, TextEmpty)])
  {
  }

  /** The split-failure call, with its arguments swapped: no status change, a warning, then a plain log entry. */
  lemma SplitFailedStep(w: World, id: nat)
    requires id in w.requestItems && IsSaved(w.requestItems[id])
    ensures UpdateLogAndStatus(w, id, SplitFailed, Some("error"), Some(StatusName(Failed)))
      == w.(ledger := w.ledger + [LogEntry(id, Warning, StatusWarning("error")), LogEntry(id, Log, SplitFailed)])
  {
    assert ParseStatus("error").None?;
    assert ResolveType(Some(StatusName(Failed))) == Log;
    assert w.requestItems[id := w.requestItems[id]] == w.requestItems;
  }

  /**
   * `process` on the saved item `id`. The text comes from storage under the
   * item's text_file key; `split` is `TextToSpeech::getTextRequestParts`,
   * about which nothing is known. Every save is taken to succeed.
   */
  method Process(w: World, id: nat, split: string -> seq<string>) returns (r: World, outcome: ProcessOutcome)
    requires id in w.requestItems && IsSaved(w.requestItems[id])
    ensures id in r.requestItems && IsSaved(r.requestItems[id])
    ensures r == w.(requestItems := r.requestItems, textItemParts := r.textItemParts,
                    audioItemParts := r.audioItemParts, audioItems := r.audioItems,
                    queue := r.queue, ledger := r.ledger)
    ensures r.requestItems == w.requestItems[id := w.requestItems[id].(status := r.requestItems[id].status)]
    // the storage read throws exactly when the key holds nothing
    ensures var key := w.requestItems[id].textFile.value;
      outcome == Raised <==> key !in w.storage
    ensures outcome == Raised ==>
      r.requestItems[id].status == Pending && r.ledger == w.ledger + [InitiatedEntry(id)]
      && NoChildrenCreated(w, r)
    // empty text: Failed, logged as an error
    ensures var key := w.requestItems[id].textFile.value;
      key in w.storage && |w.storage[key]| == 0 ==>
      outcome == Returned(false) && r.requestItems[id].status == Failed
      && r.ledger == w.ledger + [InitiatedEntry(id), LogEntry(id, Error, TextEmpty)]
      && NoChildrenCreated(w, r)
    // nothing to split: the swapped arguments leave the status Pending and add a warning
    ensures var key := w.requestItems[id].textFile.value;
      key in w.storage && |w.storage[key]| > 0 && |split(w.storage[key])| == 0 ==>
      outcome == Returned(false) && r.requestItems[id].status == Pending
      && r.ledger == w.ledger + [InitiatedEntry(id), LogEntry(id, Warning, StatusWarning("error")),
                                 LogEntry(id, Log, SplitFailed)]
      && NoChildrenCreated(w, r)
    // the fan-out: status stays Pending, never Processed
    ensures var key := w.requestItems[id].textFile.value;
      key in w.storage && |w.storage[key]| > 0 && |split(w.storage[key])| > 0 ==>
      var parts, voices := split(w.storage[key]), w.requestItems[id].voices;
      var audioParts, audioItems := AudioPartsFor(id, |parts|, voices), AudioItemsFor(id, voices);
      outcome == Returned(true) && r.requestItems[id].status == Pending
      && r.ledger == w.ledger + [InitiatedEntry(id)]
      && r.textItemParts == w.textItemParts + TextPartsFor(id, parts)
      && r.audioItemParts == w.audioItemParts + audioParts
      && r.audioItems == w.audioItems + audioItems
      && r.queue == w.queue + GenerateJobs(audioParts) + FinalizeJobs(audioItems, 5 * |parts|)
  {
    InitiateStep(w, id);
    var w1 := UpdateLogAndStatus(w, id, ProcessInitiated, Some(StatusName(Pending)), None);
    var item := w1.requestItems[id];
    var key := item.textFile.value;
    if key !in w1.storage {
      return w1, Raised;
    }
    var text := w1.storage[key];
    if |text| == 0 {
      EmptyTextStep(w1, id);
      r := UpdateLogAndStatus(w1, id, TextEmpty, Some(StatusName(Failed)), Some("error"));
      return r, Returned(false);
    }
    var parts := split(text);
    if |parts| == 0 {
      // the status and log-type arguments are passed the wrong way round
      SplitFailedStep(w1, id);
      r := UpdateLogAndStatus(w1, id, SplitFailed, Some("error"), Some(StatusName(Failed)));
      return r, Returned(false);
    }

    var texts, audios, jobs := CreateParts(id, parts, item.voices);
    var finals, finalJobs := CreateAudioItems(id, item.voices, 5 * |parts|);
    r := w1.(textItemParts := w1.textItemParts + texts, audioItemParts := w1.audioItemParts + audios,
             audioItems := w1.audioItems + finals, queue := w1.queue + jobs + finalJobs);
    outcome := Returned(true);
  }

  // ---------------------------------------------------------------------
  // createItem

  /** The array `createItem` returns: the success flag, the saved row if any, the voice messages. */
  datatype CreateResult = CreateResult(success: bool, item: Option<RequestItem>, messages: seq<string>)

  /**
   * The row `new static([...])` builds and saves: the mutators run in the
   * order of the attribute array, `setItemText` reads text_file (which
   * derives the key), then `save()` fires the saving hook before the
   * creating hook, as Eloquent orders them. `seed` is
   * the one random draw the unique id takes; `id` is the auto-increment key.
   */
  function NewRequestItem(id: nat, name: Option<string>, userId: Option<nat>, voices: seq<string>,
                          outputFormat: Option<string>, seed: Seed): (r: RequestItem)
    ensures r.id == id && r.status == Created && r.voices == voices && r.userId == userId
    ensures r.uniqueId == Some(GenerateId(seed))
    ensures r.outputName == (if Truthy(name) then name else r.uniqueId)
    ensures r.outputFormat == OutputFormat.Normalize(outputFormat)
    ensures r.textFile == Some(TextFileKey(GenerateId(seed)))
    ensures IsSaved(r)
  {
    var blank := RequestItem(id, None, None, Created, None, None, [], OutputFormat.DefaultFormat);
    var named := SetOutputName(blank, name, seed);
    var filled := SetOutputFormat(named.(userId := userId, status := Created, voices := voices), outputFormat);
    var withPath := GenerateTextFilePath(filled, seed);
    EnsureUniqueId(GenerateTextFilePath(withPath, seed), seed)
  }

  /**
   * The body of `createItem` for any voice-key lookup; `createItem` itself
   * uses the catalog's, `NameOfKey`.
   */
  method CreateItemWith(w: World, text: string, voiceKeys: seq<string>, name: Option<string>,
                    outputFormat: Option<string>, userId: Option<nat>, seed: Seed,
                    tagged: (string, nat) -> bool, lookup: string -> Option<string>)
    returns (r: World, result: CreateResult)
    ensures result.messages == InvalidKeyMessages(voiceKeys, lookup)
    ensures |ValidVoiceNames(voiceKeys, lookup)| == 0 ==>
      r == w && !result.success && result.item.None?
    ensures |ValidVoiceNames(voiceKeys, lookup)| > 0 ==>
      var id := w.nextRequestItemId;
      var item := NewRequestItem(id, name, userId, ValidVoiceNames(voiceKeys, lookup), outputFormat, seed);
      result.success && result.item == Some(item)
      && r == w.(storage := w.storage[item.textFile.value := TextCleaner.CleanString(text, tagged)],
                 requestItems := w.requestItems[id := item],
                 nextRequestItemId := id + 1,
                 queue := w.queue + [Dispatch(ProcessRequestItem(id), 0)])
  {
    var names, messages := ResolveVoiceKeys(voiceKeys, lookup);
    if |names| == 0 {
      return w, CreateResult(false, None, messages);
    }
    var cleaned := TextCleaner.CleanString(text, tagged);
    var id := w.nextRequestItemId;
    var item := NewRequestItem(id, name, userId, names, outputFormat, seed);
    r := w.(storage := w.storage[item.textFile.value := cleaned],
            requestItems := w.requestItems[id := item],
            nextRequestItemId := id + 1,
            queue := w.queue + [Dispatch(ProcessRequestItem(id), 0)]);
    result := CreateResult(true, Some(item), messages);
  }

  /**
   * `createItem`: resolves the voice keys; with at least one valid voice it
   * stores the cleaned text under the new item's text file, saves the item
   * and queues its ProcessRequestItemJob. `tagged` stands for `strip_tags`.
   */
  method CreateItem(w: World, text: string, voiceKeys: seq<string>, name: Option<string>,
                    outputFormat: Option<string>, userId: Option<nat>, seed: Seed,
                    tagged: (string, nat) -> bool)
    returns (r: World, result: CreateResult)
    ensures result.messages == InvalidKeyMessages(voiceKeys, NameOfKey)
    ensures |ValidVoiceNames(voiceKeys, NameOfKey)| == 0 ==>
      r == w && !result.success && result.item.None?
    ensures |ValidVoiceNames(voiceKeys, NameOfKey)| > 0 ==>
      var id := w.nextRequestItemId;
      var item := NewRequestItem(id, name, userId, ValidVoiceNames(voiceKeys, NameOfKey), outputFormat, seed);
      result.success && result.item == Some(item)
      && r == w.(storage := w.storage[item.textFile.value := TextCleaner.CleanString(text, tagged)],
                 requestItems := w.requestItems[id := item],
                 nextRequestItemId := id + 1,
                 queue := w.queue + [Dispatch(ProcessRequestItem(id), 0)])
  {
    r, result := CreateItemWith(w, text, voiceKeys, name, outputFormat, userId, seed, tagged, NameOfKey);
  }

  /** The row `createItem` saves is ready for `process`: both of its keys are set and its text is stored. */
  lemma CreatedItemIsSaved(w: World, cleaned: string, name: Option<string>, userId: Option<nat>,
                           voices: seq<string>, outputFormat: Option<string>, seed: Seed)
    ensures var id := w.nextRequestItemId;
      var item := NewRequestItem(id, name, userId, voices, outputFormat, seed);
      var r := w.(storage := w.storage[item.textFile.value := cleaned], requestItems := w.requestItems[id := item]);
      id in r.requestItems && IsSaved(r.requestItems[id])
      && r.requestItems[id].textFile.value in r.storage && r.storage[r.requestItems[id].textFile.value] == cleaned
  {
  }
}
