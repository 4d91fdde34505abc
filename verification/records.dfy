/**
 * The records of the service and the state they live in: the storage
 * bucket as a map from key to contents, the tables, the job queue and the
 * status ledger.
 */
module Records {
  import opened Wrappers
  import opened PhpStrings
  import opened RequestItemLog

  /** The four status constants shared by RequestItem, TTSItem, AudioItem and AudioItemPart. */
  datatype Status = Created | Pending | Processed | Failed

  function StatusName(s: Status): string {
    match s
    case Created => "Created"
    case Pending => "Pending"
    case Processed => "Processed"
    case Failed => "Failed"
  }

  /** The status a string names, if it names one exactly. */
  function ParseStatus(s: string): (r: Option<Status>)
    ensures r.Some? ==> StatusName(r.value) == s
    ensures r.None? ==> forall t: Status :: StatusName(t) != s
  {
    if s == "Created" then Some(Created)
    else if s == "Pending" then Some(Pending)
    else if s == "Processed" then Some(Processed)
    else if s == "Failed" then Some(Failed)
    else None
  }

  /** Each status's name parses back to it. */
  lemma StatusNameRoundTrip(t: Status)
    ensures ParseStatus(StatusName(t)) == Some(t)
  {
  }

  /** A row of `request_items`. Attributes that can be absent or null are options. */
  datatype RequestItem = RequestItem(
    id: nat,
    uniqueId: Option<string>,
    userId: Option<nat>,
    status: Status,
    outputName: Option<string>,
    textFile: Option<string>,
    voices: seq<string>,
    outputFormat: string)

  /** A row of `text_item_parts`: one chunk of a request's text. */
  datatype TextItemPart = TextItemPart(requestItemId: nat, itemIndex: nat, itemContent: string)

  /** A row of `audio_item_parts`: one chunk spoken by one voice; `status` is null until set. */
  datatype AudioItemPart = AudioItemPart(requestItemId: nat, itemIndex: nat, voice: string, status: Option<string>)

  /** A row of `audio_items`: the whole text spoken by one voice. */
  datatype AudioItem = AudioItem(requestItemId: nat, voice: string)

  /** A row of `tts_items`, the single-voice predecessor of RequestItem. */
  datatype TtsItem = TtsItem(
    id: nat,
    uniqueId: Option<string>,
    name: Option<string>,
    userId: Option<nat>,
    status: Status,
    textFile: Option<string>,
    audioFile: Option<string>,
    voiceId: string,
    outputFormat: Option<string>)

  /** The queued jobs; each carries the record it was constructed with. */
  datatype Job =
    | ProcessRequestItem(requestItemId: nat)
    | GenerateAudioItemPart(part: AudioItemPart)
    | FinalizeAudioItem(item: AudioItem)
    | RunTts(ttsItemId: nat)

  /** A `dispatch(...)` call: the job and its delay in seconds. */
  datatype Dispatch = Dispatch(job: Job, delay: nat)

  /**
   * Everything the core reads and writes. Ids of new rows come from the
   * `next...Id` counters (the tables' auto-increment).
   */
  datatype World = World(
    storage: map<string, string>,
    requestItems: map<nat, RequestItem>,
    nextRequestItemId: nat,
    textItemParts: seq<TextItemPart>,
    audioItemParts: seq<AudioItemPart>,
    audioItems: seq<AudioItem>,
    ttsItems: map<nat, TtsItem>,
    nextTtsItemId: nat,
    queue: seq<Dispatch>,
    ledger: seq<LogEntry>)

  /** A row that has been through the creating and saving hooks: it has a unique id and a text file key. */
  predicate IsSaved(item: RequestItem) {
    Truthy(item.uniqueId) && Truthy(item.textFile)
  }
}
