/**
 * The voice-key loop shared by `RequestItem::createItem` and
 * `TTSItem::createItems`: each key is read with `intval` and looked up in
 * the catalog; found names are kept in input order and every other key
 * yields one "Voice 'k' is invalid." message. The split is stated for any
 * lookup; `NameOfKey` is the one both callers use.
 */
module VoiceKeys {
  import opened Wrappers
  import opened PhpStrings
  import opened VoiceCatalog

  /** The catalog name a submitted key selects, if any. */
  function NameOfKey(key: string): (r: Option<string>)
    ensures r.Some? <==> IntVal(key) in CatalogKeys
  {
    VoiceNameByKey(IntVal(key))
  }

  function InvalidMessage(key: string): string {
    "Voice '" + key + "' is invalid."
  }

  /** What one key contributes to the names. */
  function Kept(key: string, lookup: string -> Option<string>): seq<string> {
    if lookup(key).Some? then [lookup(key).value] else []
  }

  /** What one key contributes to the messages. */
  function Rejected(key: string, lookup: string -> Option<string>): seq<string> {
    if lookup(key).None? then [InvalidMessage(key)] else []
  }

  /** The names the valid keys select, in input order. */
  function ValidVoiceNames(keys: seq<string>, lookup: string -> Option<string>): (r: seq<string>)
    ensures |r| <= |keys|
  {
    if |keys| == 0 then []
    else ValidVoiceNames(keys[..|keys| - 1], lookup) + Kept(keys[|keys| - 1], lookup)
  }

  /** One message per invalid key, in input order. */
  function InvalidKeyMessages(keys: seq<string>, lookup: string -> Option<string>): (r: seq<string>)
    ensures |r| <= |keys|
  {
    if |keys| == 0 then []
    else InvalidKeyMessages(keys[..|keys| - 1], lookup) + Rejected(keys[|keys| - 1], lookup)
  }

  lemma ResolveSnoc(keys: seq<string>, key: string, lookup: string -> Option<string>)
    ensures ValidVoiceNames(keys + [key], lookup) == ValidVoiceNames(keys, lookup) + Kept(key, lookup)
    ensures InvalidKeyMessages(keys + [key], lookup) == InvalidKeyMessages(keys, lookup) + Rejected(key, lookup)
  {
    assert (keys + [key])[..|keys|] == keys;
  }

  /** One more key of the input resolved. */
  lemma ResolveStep(keys: seq<string>, i: nat, lookup: string -> Option<string>)
    requires i < |keys|
    ensures ValidVoiceNames(keys[..i + 1], lookup) == ValidVoiceNames(keys[..i], lookup) + Kept(keys[i], lookup)
    ensures InvalidKeyMessages(keys[..i + 1], lookup) == InvalidKeyMessages(keys[..i], lookup) + Rejected(keys[i], lookup)
  {
    ResolveSnoc(keys[..i], keys[i], lookup);
    assert keys[..i] + [keys[i]] == keys[..i + 1];
  }

  /** The `foreach ($voiceKeys as $voiceKey)` loop. */
  method ResolveVoiceKeys(keys: seq<string>, lookup: string -> Option<string>)
    returns (names: seq<string>, messages: seq<string>)
    ensures names == ValidVoiceNames(keys, lookup)
    ensures messages == InvalidKeyMessages(keys, lookup)
  {
    names, messages := [], [];
    var i := 0;
    while i < |keys|
      invariant 0 <= i <= |keys|
      invariant names == ValidVoiceNames(keys[..i], lookup)
      invariant messages == InvalidKeyMessages(keys[..i], lookup)
    {
      ResolveStep(keys, i, lookup);
      var name := lookup(keys[i]);
      if name.None? {
        messages := messages + [InvalidMessage(keys[i])];
      } else {
        names := names + [name.value];
      }
      i := i + 1;
    }
    assert keys[..|keys|] == keys;
  }

  /** Every key lands on exactly one side: a name or a message. */
  lemma {:induction false} KeysPartition(keys: seq<string>, lookup: string -> Option<string>)
    ensures |ValidVoiceNames(keys, lookup)| + |InvalidKeyMessages(keys, lookup)| == |keys|
  {
    if |keys| > 0 {
      KeysPartition(keys[..|keys| - 1], lookup);
    }
  }

  /** No names exactly when every key is rejected. */
  lemma NoNamesAllRejected(keys: seq<string>, lookup: string -> Option<string>)
    ensures |ValidVoiceNames(keys, lookup)| == 0 <==> |InvalidKeyMessages(keys, lookup)| == |keys|
  {
    KeysPartition(keys, lookup);
  }

  /** Every kept name is one the lookup returned for some key. */
  lemma {:induction false} NamesComeFromLookup(keys: seq<string>, lookup: string -> Option<string>)
    ensures forall n :: n in ValidVoiceNames(keys, lookup) ==>
      exists i :: 0 <= i < |keys| && lookup(keys[i]) == Some(n)
  {
    if |keys| > 0 {
      var init := keys[..|keys| - 1];
      NamesComeFromLookup(init, lookup);
      forall n | n in ValidVoiceNames(keys, lookup)
        ensures exists i :: 0 <= i < |keys| && lookup(keys[i]) == Some(n)
      {
        if n in ValidVoiceNames(init, lookup) {
          var i :| 0 <= i < |init| && lookup(init[i]) == Some(n);
          assert keys[i] == init[i];
        } else {
          assert lookup(keys[|keys| - 1]) == Some(n);
        }
      }
    }
  }

  /** With the catalog lookup, every kept name is a catalog name. */
  lemma NamesAreCatalogNames(keys: seq<string>)
    ensures forall n :: n in ValidVoiceNames(keys, NameOfKey) ==>
      exists k :: k in CatalogKeys && AvailableVoices()[k].name == n
  {
    NamesComeFromLookup(keys, NameOfKey);
    forall n | n in ValidVoiceNames(keys, NameOfKey)
      ensures exists k :: k in CatalogKeys && AvailableVoices()[k].name == n
    {
      var i :| 0 <= i < |keys| && NameOfKey(keys[i]) == Some(n);
      assert IntVal(keys[i]) in CatalogKeys;
    }
  }

  /** The names of a concatenation are the names of its halves, in order. */
  lemma {:induction false} NamesAppend(a: seq<string>, b: seq<string>, lookup: string -> Option<string>)
    ensures ValidVoiceNames(a + b, lookup) == ValidVoiceNames(a, lookup) + ValidVoiceNames(b, lookup)
    decreases |b|
  {
    if |b| == 0 {
      assert a + b == a;
    } else {
      var init, last := b[..|b| - 1], b[|b| - 1];
      assert (a + b)[..|a + b| - 1] == a + init;
      assert (a + b)[|a + b| - 1] == last;
      NamesAppend(a, init, lookup);
    }
  }

  /** Likewise for the messages. */
  lemma {:induction false} MessagesAppend(a: seq<string>, b: seq<string>, lookup: string -> Option<string>)
    ensures InvalidKeyMessages(a + b, lookup) == InvalidKeyMessages(a, lookup) + InvalidKeyMessages(b, lookup)
    decreases |b|
  {
    if |b| == 0 {
      assert a + b == a;
    } else {
      var init, last := b[..|b| - 1], b[|b| - 1];
      assert (a + b)[..|a + b| - 1] == a + init;
      assert (a + b)[|a + b| - 1] == last;
      MessagesAppend(a, init, lookup);
    }
  }

  /** The decimal spelling of a catalog key selects that key's voice. */
  lemma DecimalKeySelectsVoice(k: nat)
    requires k in CatalogKeys
    ensures ValidVoiceNames([NatToDecimal(k)], NameOfKey) == [AvailableVoices()[k].name]
    ensures InvalidKeyMessages([NatToDecimal(k)], NameOfKey) == []
  {
    IntValOfDecimal(k);
    assert [NatToDecimal(k)][..0] == [];
  }

  /** A key outside the catalog yields its message and no name. */
  lemma UnknownKeyRejected(key: string)
    requires IntVal(key) !in CatalogKeys
    ensures ValidVoiceNames([key], NameOfKey) == []
    ensures InvalidKeyMessages([key], NameOfKey) == [InvalidMessage(key)]
  {
    assert [key][..0] == [];
  }
}
