/**
 * TTSItem, the single-voice predecessor of RequestItem: the same id, path
 * and format rules, a name mutator that always ends up storing the unique
 * id, an audio generator that always fails, and `createItems`, which makes
 * one item per valid voice.
 */
module TtsItems {
  import opened Wrappers
  import opened PhpStrings
  import opened UniqueId
  import opened StoragePaths
  import OutputFormat
  import opened Records
  import TextCleaner
  import opened VoiceKeys
  import RequestItems

  /** `generateUniqueID` on a TTS item. */
  function EnsureUniqueId(item: TtsItem, seed: Seed): (r: TtsItem)
    ensures Truthy(r.uniqueId)
    ensures Truthy(item.uniqueId) ==> r == item
    ensures !Truthy(item.uniqueId) ==> r.uniqueId == Some(GenerateId(seed))
    ensures r == item.(uniqueId := r.uniqueId)
  {
    item.(uniqueId := Some(EnsureId(item.uniqueId, seed)))
  }

  /**
   * `setNameAttribute`: a truthy name is stored and then overwritten by
   * the unique id, so the name is always the unique id.
   */
  function SetName(item: TtsItem, name: Option<string>, seed: Seed): (r: TtsItem)
    ensures Truthy(r.uniqueId) && r.name == r.uniqueId
    ensures r == EnsureUniqueId(item, seed).(name := r.name)
  {
    var first := if Truthy(name) then item.(name := name) else item;
    var i := EnsureUniqueId(first, seed);
    i.(name := i.uniqueId)
  }

  /** The argument has no effect on the outcome. */
  lemma SetNameIgnoresArgument(item: TtsItem, n1: Option<string>, n2: Option<string>, seed: Seed)
    ensures SetName(item, n1, seed) == SetName(item, n2, seed)
  {
  }

  /** `setOutputFormatAttribute`, the same switch as RequestItem's. */
  function SetOutputFormat(item: TtsItem, requested: Option<string>): (r: TtsItem)
    ensures r.outputFormat.Some? && OutputFormat.IsCanonical(r.outputFormat.value)
    ensures r == item.(outputFormat := r.outputFormat)
  {
    item.(outputFormat := Some(OutputFormat.Normalize(requested)))
  }

  /** Both models store the same format for the same request, and setting it twice changes nothing. */
  lemma SameFormatAsRequestItem(ri: RequestItem, ti: TtsItem, requested: Option<string>)
    ensures SetOutputFormat(ti, requested).outputFormat == Some(RequestItems.SetOutputFormat(ri, requested).outputFormat)
    ensures var once := SetOutputFormat(ti, requested);
      SetOutputFormat(once, once.outputFormat) == once
  {
    OutputFormat.NormalizeIdempotent(requested);
  }

  /** `generateTextFilePath`: only a falsy path is replaced by `text/<unique id>.txt`. */
  function GenerateTextFilePath(item: TtsItem, seed: Seed): (r: TtsItem)
    ensures Truthy(r.textFile)
    ensures Truthy(item.textFile) ==> r == item
    ensures !Truthy(item.textFile) ==>
      (Truthy(r.uniqueId) && r.textFile == Some(TextFileKey(r.uniqueId.value))
       && r == EnsureUniqueId(item, seed).(textFile := r.textFile))
  {
    if Truthy(item.textFile) then item
    else
      var i := EnsureUniqueId(item, seed);
      i.(textFile := Some(TextFileKey(i.uniqueId.value)))
  }

  /** `generateAudioFilePath`: only a falsy path is replaced by `audio/<unique id>.<output format>`. */
  function GenerateAudioFilePath(item: TtsItem, seed: Seed): (r: TtsItem)
    ensures Truthy(r.audioFile)
    ensures Truthy(item.audioFile) ==> r == item
    ensures !Truthy(item.audioFile) ==>
      (Truthy(r.uniqueId) && r.audioFile == Some(AudioFileKey(r.uniqueId.value, item.outputFormat))
       && r == EnsureUniqueId(item, seed).(audioFile := r.audioFile))
  {
    if Truthy(item.audioFile) then item
    else
      var i := EnsureUniqueId(item, seed);
      i.(audioFile := Some(AudioFileKey(i.uniqueId.value, i.outputFormat)))
  }

  /** The saving hook: text path, then audio path. */
  function Saving(item: TtsItem, seed: Seed): (r: TtsItem)
    ensures Truthy(r.textFile) && Truthy(r.audioFile)
    ensures Truthy(item.textFile) ==> r.textFile == item.textFile
    ensures Truthy(item.audioFile) ==> r.audioFile == item.audioFile
  {
    GenerateAudioFilePath(GenerateTextFilePath(item, seed), seed)
  }

  /** Saving again changes nothing: existing paths are never overwritten. */
  lemma SavingSetsPathsOnce(item: TtsItem, s1: Seed, s2: Seed)
    ensures Saving(Saving(item, s1), s2) == Saving(item, s1)
  {
  }

  /**
   * `generateAudio`: Pending, then unconditionally Failed, then `save()`,
   * whose saving hook derives any missing path. The save is taken to succeed.
   */
  function GenerateAudio(item: TtsItem, seed: Seed): (r: (TtsItem, bool))
    ensures r.1 && r.0.status == Failed
    ensures Truthy(r.0.textFile) && Truthy(r.0.audioFile)
    ensures r.0 == Saving(item, seed).(status := Failed)
    ensures Truthy(item.textFile) && Truthy(item.audioFile) ==> r.0 == item.(status := Failed)
  {
    var pending := item.(status := Pending);
    (Saving(pending.(status := Failed), seed), true)
  }

  /** No run of `generateAudio`, however often repeated, reaches Processed. */
  lemma GenerateAudioNeverProcesses(item: TtsItem, s1: Seed, s2: Seed)
    ensures GenerateAudio(item, s1).0.status != Processed
    ensures GenerateAudio(GenerateAudio(item, s1).0, s2) == GenerateAudio(item, s1)
  {
  }

  /** The deleting hook, then the row's removal: the text and audio keys go when the attributes are truthy. */
  function Delete(w: World, id: nat): (r: World)
    requires id in w.ttsItems
    ensures r.ttsItems == w.ttsItems - {id}
    ensures r == w.(storage := r.storage, ttsItems := r.ttsItems)
    ensures var item := w.ttsItems[id];
      forall key :: key in r.storage <==>
        (key in w.storage
         && !(Truthy(item.textFile) && key == item.textFile.value)
         && !(Truthy(item.audioFile) && key == item.audioFile.value))
    ensures forall key :: key in r.storage ==> r.storage[key] == w.storage[key]
  {
    var item := w.ttsItems[id];
    var s1 := if Truthy(item.textFile) then w.storage - {item.textFile.value} else w.storage;
    var s2 := if Truthy(item.audioFile) then s1 - {item.audioFile.value} else s1;
    w.(storage := s2, ttsItems := w.ttsItems - {id})
  }

  // ---------------------------------------------------------------------
  // createItems

  /**
   * The item `createItems` saves for one voice: named after its unique id,
   * status Created, the normalised format, and both paths derived from the
   * id. `seed` is the one random draw the id takes; `id` is the
   * auto-increment key.
   */
  function NewTtsItem(id: nat, name: Option<string>, userId: Option<nat>, voice: string,
                      outputFormat: Option<string>, seed: Seed): TtsItem
  {
    var uid := GenerateId(seed);
    var format := Some(OutputFormat.Normalize(outputFormat));
    TtsItem(id, Some(uid), Some(uid), userId, Created, Some(TextFileKey(uid)), Some(AudioFileKey(uid, format)), voice, format)
  }

  /**
   * That is what `new TTSItem([...])` produces: the mutators run in the
   * order of the attribute array (`name` draws the id), `setItemText`
   * derives the text path, then `save()` fires the saving hook, then the
   * creating hook. The
   * name argument is lost along the way.
   */
  lemma NewTtsItemFromMutators(id: nat, name: Option<string>, userId: Option<nat>, voice: string,
                               outputFormat: Option<string>, seed: Seed)
    ensures var blank := TtsItem(id, None, None, None, Created, None, None, "", None);
      var named := SetName(blank, name, seed);
      var filled := SetOutputFormat(named.(userId := userId, status := Created, voiceId := voice), outputFormat);
      var withText := GenerateTextFilePath(filled, seed);
      EnsureUniqueId(Saving(withText, seed), seed) == NewTtsItem(id, name, userId, voice, outputFormat, seed)
  {
  }

  /** What `createItems` returns: the created items and the voice messages. */
  datatype CreateItemsResult = CreateItemsResult(items: seq<TtsItem>, messages: seq<string>)

  /** The items `createItems` builds for the voices `names`, ids counting up from `first`. */
  function NewItems(first: nat, names: seq<string>, name: Option<string>, userId: Option<nat>,
                    outputFormat: Option<string>, rng: nat -> Seed): seq<TtsItem> {
    seq(|names|, k requires 0 <= k < |names| => NewTtsItem(first + k, name, userId, names[k], outputFormat, rng(k)))
  }

  lemma NewItemsSnoc(first: nat, names: seq<string>, k: nat, name: Option<string>, userId: Option<nat>,
                     outputFormat: Option<string>, rng: nat -> Seed)
    requires k < |names|
    ensures NewItems(first, names[..k + 1], name, userId, outputFormat, rng)
      == NewItems(first, names[..k], name, userId, outputFormat, rng)
         + [NewTtsItem(first + k, name, userId, names[k], outputFormat, rng(k))]
  {
  }

  /** One pass of the loop body: `setItemText`, `save` under the next id, `dispatch(new TTSJob(...))`. */
  function SaveItem(w: World, item: TtsItem, text: string): World {
    w.(storage := w.storage[item.textFile.GetOr("") := text],
       ttsItems := w.ttsItems[item.id := item],
       nextTtsItemId := w.nextTtsItemId + 1,
       queue := w.queue + [Dispatch(RunTts(item.id), 0)])
  }

  /** The loop body run for each item in turn. */
  function SaveAll(w: World, items: seq<TtsItem>, text: string): (r: World)
    ensures r.nextTtsItemId == w.nextTtsItemId + |items|
    ensures r == w.(storage := r.storage, ttsItems := r.ttsItems, nextTtsItemId := r.nextTtsItemId, queue := r.queue)
  {
    if |items| == 0 then w
    else SaveItem(SaveAll(w, items[..|items| - 1], text), items[|items| - 1], text)
  }

  lemma SaveAllSnoc(w: World, items: seq<TtsItem>, item: TtsItem, text: string)
    ensures SaveAll(w, items + [item], text) == SaveItem(SaveAll(w, items, text), item, text)
  {
    assert (items + [item])[..|items|] == items;
  }

  function TextKeys(items: seq<TtsItem>): set<string> {
    set k | 0 <= k < |items| :: items[k].textFile.GetOr("")
  }

  lemma TextKeysSnoc(items: seq<TtsItem>, item: TtsItem)
    ensures TextKeys(items + [item]) == TextKeys(items) + {item.textFile.GetOr("")}
  {
    var all := items + [item];
    forall key ensures key in TextKeys(all) <==> key in TextKeys(items) + {item.textFile.GetOr("")} {
      if key in TextKeys(all) {
        var j :| 0 <= j < |all| && all[j].textFile.GetOr("") == key;
        if j < |items| {
          assert items[j].textFile.GetOr("") == key;
        }
      }
      if key in TextKeys(items) {
        var j :| 0 <= j < |items| && items[j].textFile.GetOr("") == key;
        assert all[j] == items[j];
      }
      if key == item.textFile.GetOr("") {
        assert all[|items|] == item;
      }
    }
  }

  /** Every item's text file holds the text; every other key keeps its contents. */
  lemma {:induction false} SaveAllStorage(w: World, items: seq<TtsItem>, text: string)
    ensures forall key :: key in TextKeys(items) ==>
      key in SaveAll(w, items, text).storage && SaveAll(w, items, text).storage[key] == text
    ensures forall key :: key !in TextKeys(items) ==>
      (key in SaveAll(w, items, text).storage <==> key in w.storage)
      && (key in w.storage ==> SaveAll(w, items, text).storage[key] == w.storage[key])
  {
    if |items| > 0 {
      var init := items[..|items| - 1];
      SaveAllStorage(w, init, text);
      TextKeysSnoc(init, items[|items| - 1]);
      assert init + [items[|items| - 1]] == items;
    }
  }

  /** Each item is stored under its id, and rows with older ids are untouched. */
  lemma {:induction false} SaveAllRows(w: World, items: seq<TtsItem>, text: string)
    requires forall k :: 0 <= k < |items| ==> items[k].id == w.nextTtsItemId + k
    ensures forall k :: 0 <= k < |items| ==>
      items[k].id in SaveAll(w, items, text).ttsItems && SaveAll(w, items, text).ttsItems[items[k].id] == items[k]
    ensures forall i :: i in w.ttsItems && i < w.nextTtsItemId ==>
      i in SaveAll(w, items, text).ttsItems && SaveAll(w, items, text).ttsItems[i] == w.ttsItems[i]
  {
    if |items| > 0 {
      SaveAllRows(w, items[..|items| - 1], text);
    }
  }

  /** The TTSJobs dispatched for `items`, without delay, in item order. */
  function TtsJobs(items: seq<TtsItem>): seq<Dispatch> {
    seq(|items|, k requires 0 <= k < |items| => Dispatch(RunTts(items[k].id), 0))
  }

  /** One TTSJob per item, in item order, after the jobs already queued. */
  lemma {:induction false} SaveAllQueue(w: World, items: seq<TtsItem>, text: string)
    ensures SaveAll(w, items, text).queue == w.queue + TtsJobs(items)
  {
    if |items| > 0 {
      var init := items[..|items| - 1];
      SaveAllQueue(w, init, text);
      assert TtsJobs(items) == TtsJobs(init) + [Dispatch(RunTts(items[|items| - 1].id), 0)];
    }
  }

  /**
   * `createItems`: one item per valid voice, in input order, each with its
   * own draw `rng(k)`, the cleaned text stored under its text file and a
   * TTSJob queued. Nothing is created when no key is valid.
   */
  method CreateItems(w: World, text: string, voiceKeys: seq<string>, outputFormat: Option<string>,
                     name: Option<string>, userId: Option<nat>, rng: nat -> Seed,
                     tagged: (string, nat) -> bool)
    returns (r: World, result: CreateItemsResult)
    ensures result.messages == InvalidKeyMessages(voiceKeys, NameOfKey)
    ensures |ValidVoiceNames(voiceKeys, NameOfKey)| == 0 ==> r == w && result.items == []
    ensures |ValidVoiceNames(voiceKeys, NameOfKey)| > 0 ==>
      result.items == NewItems(w.nextTtsItemId, ValidVoiceNames(voiceKeys, NameOfKey), name, userId, outputFormat, rng)
      && r == SaveAll(w, result.items, TextCleaner.CleanString(text, tagged))
  {
    var names, messages := ResolveVoiceKeys(voiceKeys, NameOfKey);
    if |names| == 0 {
      return w, CreateItemsResult([], messages);
    }
    var items;
    r, items := CreateEach(w, names, TextCleaner.CleanString(text, tagged), outputFormat, name, userId, rng);
    result := CreateItemsResult(items, messages);
  }

  /** The `foreach ($voiceIDs as $voice)` loop of `createItems`. */
  method CreateEach(w: World, names: seq<string>, cleaned: string, outputFormat: Option<string>,
                    name: Option<string>, userId: Option<nat>, rng: nat -> Seed)
    returns (r: World, items: seq<TtsItem>)
    ensures items == NewItems(w.nextTtsItemId, names, name, userId, outputFormat, rng)
    ensures r == SaveAll(w, items, cleaned)
  {
    items := [];
    r := w;
    var k := 0;
    while k < |names|
      invariant 0 <= k <= |names|
      invariant items == NewItems(w.nextTtsItemId, names[..k], name, userId, outputFormat, rng)
      invariant r == SaveAll(w, items, cleaned)
    {
      var item := NewTtsItem(r.nextTtsItemId, name, userId, names[k], outputFormat, rng(k));
      NewItemsSnoc(w.nextTtsItemId, names, k, name, userId, outputFormat, rng);
      SaveAllSnoc(w, items, item, cleaned);
      r := SaveItem(r, item, cleaned);
      items := items + [item];
      k := k + 1;
    }
    assert names[..k] == names;
  }

  /** The k-th new item has id `first + k`, voice k, its unique id as name, and a text file among the keys. */
  lemma NewItemsShape(first: nat, names: seq<string>, name: Option<string>, userId: Option<nat>,
                      outputFormat: Option<string>, rng: nat -> Seed)
    ensures var items := NewItems(first, names, name, userId, outputFormat, rng);
      |items| == |names|
      && forall k :: 0 <= k < |items| ==>
        items[k].id == first + k && items[k].voiceId == names[k] && items[k].name == items[k].uniqueId
        && items[k].status == Created && items[k].textFile.Some? && items[k].textFile.value in TextKeys(items)
  {
    var items := NewItems(first, names, name, userId, outputFormat, rng);
    forall k | 0 <= k < |items|
      ensures items[k].id == first + k && items[k].voiceId == names[k] && items[k].name == items[k].uniqueId
        && items[k].status == Created && items[k].textFile.Some? && items[k].textFile.value in TextKeys(items)
    {
      assert items[k] == NewTtsItem(first + k, name, userId, names[k], outputFormat, rng(k));
      assert items[k].textFile.GetOr("") == items[k].textFile.value;
    }
  }

  /**
   * What a run of `createItems` leaves behind: the k-th item, for voice
   * k, is stored under its own id with the cleaned text under its text
   * file; rows with older ids and storage keys no item uses are untouched;
   * one TTSJob per item is queued in order.
   */
  lemma CreatedItemsStored(w: World, names: seq<string>, text: string,
                           name: Option<string>, userId: Option<nat>, outputFormat: Option<string>, rng: nat -> Seed)
    ensures var items := NewItems(w.nextTtsItemId, names, name, userId, outputFormat, rng);
      var r := SaveAll(w, items, text);
      && (forall k :: 0 <= k < |items| ==>
            items[k].id in r.ttsItems && r.ttsItems[items[k].id] == items[k]
            && items[k].textFile.Some? && items[k].textFile.value in r.storage
            && r.storage[items[k].textFile.value] == text)
      && (forall i :: i in w.ttsItems && i < w.nextTtsItemId ==> i in r.ttsItems && r.ttsItems[i] == w.ttsItems[i])
      && (forall key :: key in w.storage && key !in TextKeys(items) ==>
            key in r.storage && r.storage[key] == w.storage[key])
      && r.queue == w.queue + TtsJobs(items)
  {
    var items := NewItems(w.nextTtsItemId, names, name, userId, outputFormat, rng);
    NewItemsShape(w.nextTtsItemId, names, name, userId, outputFormat, rng);
    SaveAllRows(w, items, text);
    SaveAllStorage(w, items, text);
    SaveAllQueue(w, items, text);
  }
}
