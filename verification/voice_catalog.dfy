/**
 * The static catalog of speech-synthesis voices and its lookups by key
 * (the `getAvailableVoices`, `getVoiceNameByKey` and `getVoiceDataByKey`
 * helpers of the TextToSpeech class).
 */
module VoiceCatalog {
  import opened Wrappers

  datatype Gender = Male | Female

  datatype Voice = Voice(preferred: bool, gender: Gender, name: string, language: string)

  /** `getAvailableVoices`: the catalog keyed by the integers 1 to 16. */
  function AvailableVoices(): map<int, Voice> {
    map[
      1 := Voice(false, Male, "Russell", "en-AU"),
      2 := Voice(false, Female, "Nicole", "en-AU"),
      3 := Voice(true, Male, "Brian", "en-GB"),
      4 := Voice(true, Female, "Amy", "en-GB"),
      5 := Voice(false, Female, "Emma", "en-GB"),
      6 := Voice(false, Female, "Aditi", "en-IN"),
      7 := Voice(false, Female, "Raveena", "en-IN"),
      8 := Voice(false, Male, "Joey", "en-US"),
      9 := Voice(false, Male, "Justin", "en-US"),
      10 := Voice(true, Male, "Matthew", "en-US"),
      11 := Voice(false, Female, "Ivy", "en-US"),
      12 := Voice(true, Female, "Joanna", "en-US"),
      13 := Voice(false, Female, "Kendra", "en-US"),
      14 := Voice(false, Female, "Kimberly", "en-US"),
      15 := Voice(false, Female, "Salli", "en-US"),
      16 := Voice(false, Male, "Geraint", "en-GB-WLS")
    ]
  }

  const CatalogKeys: set<int> := {1, 2, 3, 4, 5, 6, 7, 8, 9, 10, 11, 12, 13, 14, 15, 16}

  /** `getVoiceDataByKey`: the voice's record, or null for a key outside the catalog. */
  function VoiceDataByKey(key: int): (r: Option<Voice>)
    ensures r.Some? <==> key in AvailableVoices()
    ensures r.Some? ==> r.value == AvailableVoices()[key]
  {
    if key in AvailableVoices() then Some(AvailableVoices()[key]) else None
  }

  /** `getVoiceNameByKey`: the voice's provider name, or null for a key outside the catalog. */
  function VoiceNameByKey(key: int): (r: Option<string>)
    ensures r.Some? <==> key in CatalogKeys
    ensures r.Some? ==> r.value == AvailableVoices()[key].name && |r.value| > 0
  {
    match VoiceDataByKey(key)
    case Some(v) => Some(v.name)
    case None => None
  }

  /** The key whose voice has the given name, or 0 for a name outside the catalog. */
  function KeyOfName(name: string): int {
    if name == "Russell" then 1 else if name == "Nicole" then 2
    else if name == "Brian" then 3 else if name == "Amy" then 4
    else if name == "Emma" then 5 else if name == "Aditi" then 6
    else if name == "Raveena" then 7 else if name == "Joey" then 8
    else if name == "Justin" then 9 else if name == "Matthew" then 10
    else if name == "Ivy" then 11 else if name == "Joanna" then 12
    else if name == "Kendra" then 13 else if name == "Kimberly" then 14
    else if name == "Salli" then 15 else if name == "Geraint" then 16
    else 0
  }

  /** The catalog's keys are exactly 1..16. */
  lemma CatalogKeys16()
    ensures AvailableVoices().Keys == CatalogKeys
    ensures forall k :: k in AvailableVoices() <==> 1 <= k <= 16
  {
    CatalogKeysRange();
  }

  lemma CatalogKeysRange()
    ensures forall k :: k in CatalogKeys <==> 1 <= k <= 16
  {
  }

  lemma NamesInvertFrom1()
    ensures forall k :: 1 <= k <= 4 ==> KeyOfName(AvailableVoices()[k].name) == k
  {
    assert AvailableVoices()[1].name == "Russell" && KeyOfName("Russell") == 1;
    assert AvailableVoices()[2].name == "Nicole" && KeyOfName("Nicole") == 2;
    assert AvailableVoices()[3].name == "Brian" && KeyOfName("Brian") == 3;
    assert AvailableVoices()[4].name == "Amy" && KeyOfName("Amy") == 4;
  }

  lemma NamesInvertFrom5()
    ensures forall k :: 5 <= k <= 8 ==> KeyOfName(AvailableVoices()[k].name) == k
  {
    assert AvailableVoices()[5].name == "Emma" && KeyOfName("Emma") == 5;
    assert AvailableVoices()[6].name == "Aditi" && KeyOfName("Aditi") == 6;
    assert AvailableVoices()[7].name == "Raveena" && KeyOfName("Raveena") == 7;
    assert AvailableVoices()[8].name == "Joey" && KeyOfName("Joey") == 8;
  }

  lemma NamesInvertFrom9()
    ensures forall k :: 9 <= k <= 12 ==> KeyOfName(AvailableVoices()[k].name) == k
  {
    assert AvailableVoices()[9].name == "Justin" && KeyOfName("Justin") == 9;
    assert AvailableVoices()[10].name == "Matthew" && KeyOfName("Matthew") == 10;
    assert AvailableVoices()[11].name == "Ivy" && KeyOfName("Ivy") == 11;
    assert AvailableVoices()[12].name == "Joanna" && KeyOfName("Joanna") == 12;
  }

  lemma NamesInvertFrom13()
    ensures forall k :: 13 <= k <= 16 ==> KeyOfName(AvailableVoices()[k].name) == k
  {
    assert AvailableVoices()[13].name == "Kendra" && KeyOfName("Kendra") == 13;
    assert AvailableVoices()[14].name == "Kimberly" && KeyOfName("Kimberly") == 14;
    assert AvailableVoices()[15].name == "Salli" && KeyOfName("Salli") == 15;
    assert AvailableVoices()[16].name == "Geraint" && KeyOfName("Geraint") == 16;
  }

  /** Each catalog name leads back to its own key. */
  lemma CatalogNamesInvert()
    ensures forall k :: k in AvailableVoices() ==> KeyOfName(AvailableVoices()[k].name) == k
  {
    CatalogKeys16();
    forall k | k in AvailableVoices()
      ensures KeyOfName(AvailableVoices()[k].name) == k
    {
      if k <= 4 {
        NamesInvertFrom1();
      } else if k <= 8 {
        NamesInvertFrom5();
      } else if k <= 12 {
        NamesInvertFrom9();
      } else {
        NamesInvertFrom13();
      }
    }
  }

  /** The preferred voices are exactly those with keys 3, 4, 10 and 12. */
  lemma PreferredVoices()
    ensures forall k :: k in AvailableVoices() && AvailableVoices()[k].preferred <==> k in {3, 4, 10, 12}
  {
  }

  /** Distinct keys carry distinct names, so a name identifies its key. */
  lemma NameDeterminesKey(k1: int, k2: int)
    requires VoiceNameByKey(k1).Some? && VoiceNameByKey(k1) == VoiceNameByKey(k2)
    ensures k1 == k2
  {
    CatalogNamesInvert();
  }
}
