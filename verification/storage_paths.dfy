/**
 * Storage keys derived from an item's unique id (`generateTextFilePath` and
 * `generateAudioFilePath`), and the "only when unset" rule they share.
 */
module StoragePaths {
  import opened Wrappers
  import opened PhpStrings

  const TextPrefix := "text/"
  const TextSuffix := ".txt"
  const AudioPrefix := "audio/"

  /** `'text/' . $uid . '.txt'` */
  function TextFileKey(uid: string): string {
    TextPrefix + uid + TextSuffix
  }

  /** `'audio/' . $uid . '.' . $format`; a null format concatenates as "". */
  function AudioFileKey(uid: string, format: Option<string>): string {
    AudioPrefix + uid + "." + format.GetOr("")
  }

  /** A path attribute keeps a truthy value and otherwise takes the derived key. */
  function KeepOrDerive(current: Option<string>, derived: string): (r: string)
    ensures Truthy(current) ==> r == current.value
    ensures !Truthy(current) ==> r == derived
  {
    if Truthy(current) then current.value else derived
  }

  /** Reads the unique id back out of a text-file key. */
  function UidOfTextFileKey(key: string): Option<string> {
    if |key| >= |TextPrefix| + |TextSuffix|
       && key[..|TextPrefix|] == TextPrefix
       && key[|key| - |TextSuffix|..] == TextSuffix
    then Some(key[|TextPrefix|..|key| - |TextSuffix|])
    else None
  }

  /** The text-file key determines the unique id it was built from. */
  lemma TextFileKeyRoundTrip(uid: string)
    ensures UidOfTextFileKey(TextFileKey(uid)) == Some(uid)
  {
    var key := TextFileKey(uid);
    assert key[..|TextPrefix|] == TextPrefix;
    assert key[|key| - |TextSuffix|..] == TextSuffix;
    assert key[|TextPrefix|..|key| - |TextSuffix|] == uid;
  }

  /** So two items with different unique ids never share a text file. */
  lemma TextFileKeyInjective(u1: string, u2: string)
    requires u1 != u2
    ensures TextFileKey(u1) != TextFileKey(u2)
  {
    TextFileKeyRoundTrip(u1);
    TextFileKeyRoundTrip(u2);
  }
}
