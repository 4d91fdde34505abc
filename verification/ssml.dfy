/**
 * `textToSSML`: the replacement table of `getSSMLReplacements` applied with
 * `str_replace` one entry at a time in table order, then the fixed
 * `<speak>` wrapping. The wrapping string literally begins and ends with a
 * single-quote character, as the source writes it.
 */
module Ssml {
  import opened PhpStrings

  datatype Replacement = Replacement(search: string, replace: string)

  const OpenSentence := Replacement("(", "<s>(")
  const CloseSentence := Replacement(")", ")</s>")
  const DropPeriod := Replacement(")</s>.", ")</s>")
  const DropSemicolon := Replacement(")</s>;", ")</s>")
  const DropColon := Replacement(")</s>:", ")</s>")
  const Eppp := Replacement("EPPP", "E Triple P")
  const Cplee := Replacement("CPLEE", "See Plea")
  const DsmIv := Replacement("DSM-IV", "<say-as interpret-as=\"character\">DSM</say-as> 4")
  const Dsm5 := Replacement("DSM-5", "<say-as interpret-as=\"character\">DSM</say-as> 5")
  const Apa := Replacement("APA", "<say-as interpret-as=\"character\">APA</say-as>")
  const Ptsd := Replacement("PTSD", "<say-as interpret-as=\"character\">PTSD</say-as>")

  /** `getSSMLReplacements`, in insertion order. */
  const Replacements: seq<Replacement> :=
    [OpenSentence, CloseSentence, DropPeriod, DropSemicolon, DropColon, Eppp, Cplee, DsmIv, Dsm5, Apa, Ptsd]

  const SpeakOpen := "'<speak><amazon:auto-breaths duration=\"short\">"
  const SpeakClose := "</amazon:auto-breaths></speak>'"

  /** The `foreach ... str_replace` loop: each entry rewrites the result of the previous ones. */
  function ApplyAll(table: seq<Replacement>, text: string): string
    decreases |table|
  {
    if |table| == 0 then text
    else ApplyAll(table[1..], ReplaceAll(text, table[0].search, table[0].replace))
  }

  lemma ConcatSlices(a: string, b: string, c: string)
    ensures var r := a + b + c;
      |r| == |a| + |b| + |c| && r[..|a|] == a && r[|r| - |c|..] == c && r[|a|..|r| - |c|] == b
  {
    var r := a + b + c;
    assert r[..|a|] == a;
    assert r[|r| - |c|..] == c;
    assert r[|a|..|r| - |c|] == b;
  }

  /** `textToSSML` */
  function TextToSsml(text: string): (r: string)
    ensures |r| >= |SpeakOpen| + |SpeakClose|
    ensures r[..|SpeakOpen|] == SpeakOpen
    ensures r[|r| - |SpeakClose|..] == SpeakClose
    ensures r[|SpeakOpen|..|r| - |SpeakClose|] == ApplyAll(Replacements, text)
  {
    ConcatSlices(SpeakOpen, ApplyAll(Replacements, text), SpeakClose);
    SpeakOpen + ApplyAll(Replacements, text) + SpeakClose
  }

  predicate NoSearchOccurs(table: seq<Replacement>, text: string) {
    forall k :: 0 <= k < |table| ==> !Occurs(table[k].search, text)
  }

  /** When no search string occurs in the text, the table leaves it as it is. */
  lemma {:induction false} ApplyAllAbsent(table: seq<Replacement>, text: string)
    requires NoSearchOccurs(table, text)
    ensures ApplyAll(table, text) == text
    decreases |table|
  {
    if |table| > 0 {
      assert !Occurs(table[0].search, text);
      ReplaceAllAbsent(text, table[0].search, table[0].replace);
      assert NoSearchOccurs(table[1..], text) by {
        forall k | 0 <= k < |table[1..]| ensures !Occurs(table[1..][k].search, text) {
          assert table[1..][k] == table[k + 1];
        }
      }
      ApplyAllAbsent(table[1..], text);
    }
  }

  /** Text containing no key of the table is only wrapped. */
  lemma PlainTextIsOnlyWrapped(text: string)
    requires NoSearchOccurs(Replacements, text)
    ensures TextToSsml(text) == SpeakOpen + text + SpeakClose
  {
    ApplyAllAbsent(Replacements, text);
  }

  lemma OpenParenStep()
    ensures ReplaceAll("(x).", OpenSentence.search, OpenSentence.replace) == "<s>(x)."
  {
    ReplaceAllMatch("(", "x).", "<s>(");
    MissingCharNoOccurrence("(", "x).", '(');
    ReplaceAllAbsent("x).", "(", "<s>(");
    assert "(x)." == "(" + "x)." && "<s>(" + "x)." == "<s>(x).";
  }

  lemma CloseParenStep()
    ensures ReplaceAll("<s>(x).", CloseSentence.search, CloseSentence.replace) == "<s>(x)</s>."
  {
    ReplaceAllSkipsPlain("<s>(x", ")" + ".", ")", ")</s>");
    ReplaceAllMatch(")", ".", ")</s>");
    MissingCharNoOccurrence(")", ".", ')');
    ReplaceAllAbsent(".", ")", ")</s>");
    assert "<s>(x)." == "<s>(x" + (")" + ".") && "<s>(x" + (")</s>" + ".") == "<s>(x)</s>.";
  }

  lemma PeriodStep()
    ensures ReplaceAll("<s>(x)</s>.", DropPeriod.search, DropPeriod.replace) == "<s>(x)</s>"
  {
    ReplaceAllSkipsPlain("<s>(x", ")</s>.", ")</s>.", ")</s>");
    ReplaceAllMatch(")</s>.", "", ")</s>");
    assert ")</s>." + "" == ")</s>.";
    assert "<s>(x)</s>." == "<s>(x" + ")</s>." && "<s>(x" + (")</s>" + "") == "<s>(x)</s>";
  }

  /** A table whose every search string has a character (given in `marks`) the text lacks finds nothing in it. */
  lemma AbsentByWitness(table: seq<Replacement>, text: string, marks: string)
    requires |marks| == |table|
    requires forall k :: 0 <= k < |table| ==> marks[k] in table[k].search && marks[k] !in text
    ensures NoSearchOccurs(table, text)
  {
    forall k | 0 <= k < |table| ensures !Occurs(table[k].search, text) {
      MissingCharNoOccurrence(table[k].search, text, marks[k]);
    }
  }

  lemma ParenRestAbsent()
    ensures NoSearchOccurs(Replacements[3..], "<s>(x)</s>")
  {
    AbsentByWitness(Replacements[3..], "<s>(x)</s>", ";:ECDDAD");
  }

  /** Three entries that each rewrite the text, then a rest that finds nothing. */
  lemma ApplyThreeSteps(table: seq<Replacement>, text: string, t1: string, t2: string, t3: string)
    requires |table| >= 3
    requires ReplaceAll(text, table[0].search, table[0].replace) == t1
    requires ReplaceAll(t1, table[1].search, table[1].replace) == t2
    requires ReplaceAll(t2, table[2].search, table[2].replace) == t3
    requires NoSearchOccurs(table[3..], t3)
    ensures ApplyAll(table, text) == t3
  {
    assert table[1..][1..] == table[2..];
    assert table[2..][1..] == table[3..];
    assert ApplyAll(table, text) == ApplyAll(table[1..], t1);
    assert ApplyAll(table[1..], t1) == ApplyAll(table[2..], t2);
    assert ApplyAll(table[2..], t2) == ApplyAll(table[3..], t3);
    ApplyAllAbsent(table[3..], t3);
  }

  /** The entries apply in table order, so the period after a closing parenthesis is dropped. */
  lemma ParenthesisedSentence()
    ensures TextToSsml("(x).") == SpeakOpen + "<s>(x)</s>" + SpeakClose
  {
    OpenParenStep();
    CloseParenStep();
    PeriodStep();
    ParenRestAbsent();
    ApplyThreeSteps(Replacements, "(x).", "<s>(x).", "<s>(x)</s>.", "<s>(x)</s>");
  }

  lemma AcronymRestAbsent()
    ensures NoSearchOccurs(Replacements[6..], "E Triple P")
  {
    AbsentByWitness(Replacements[6..], "E Triple P", "CDDAD");
  }

  lemma AcronymHeadAbsent()
    ensures NoSearchOccurs(Replacements[..5], "EPPP")
  {
    AbsentByWitness(Replacements[..5], "EPPP", "())))");
  }

  /** Entry `n` is the only one that finds anything: the result is its rewrite. */
  lemma ApplyOneHit(table: seq<Replacement>, n: nat, text: string, t: string)
    requires n < |table|
    requires NoSearchOccurs(table[..n], text)
    requires ReplaceAll(text, table[n].search, table[n].replace) == t
    requires NoSearchOccurs(table[n + 1..], t)
    ensures ApplyAll(table, text) == t
  {
    ApplyAllAbsent(table[..n], text);
    ApplyAllPrefix(table, n, text);
    assert table[n..][1..] == table[n + 1..];
    ApplyAllAbsent(table[n + 1..], t);
  }

  lemma AcronymStep()
    ensures ReplaceAll("EPPP", Eppp.search, Eppp.replace) == "E Triple P"
  {
    ReplaceAllMatch("EPPP", "", "E Triple P");
    assert "EPPP" + "" == "EPPP" && "E Triple P" + "" == "E Triple P";
  }

  /** An acronym is spelled out: "EPPP" reads "E Triple P". */
  lemma AcronymSpelledOut()
    ensures TextToSsml("EPPP") == SpeakOpen + "E Triple P" + SpeakClose
  {
    AcronymHeadAbsent();
    AcronymStep();
    AcronymRestAbsent();
    ApplyOneHit(Replacements, 5, "EPPP", "E Triple P");
  }

  /** Running a table is running its first n entries, then the rest. */
  lemma {:induction false} ApplyAllPrefix(table: seq<Replacement>, n: nat, text: string)
    requires n <= |table|
    ensures ApplyAll(table, text) == ApplyAll(table[n..], ApplyAll(table[..n], text))
    decreases n
  {
    if n > 0 {
      var once := ReplaceAll(text, table[0].search, table[0].replace);
      assert table[..n][1..] == table[1..][..n - 1];
      assert table[1..][n - 1..] == table[n..];
      ApplyAllPrefix(table[1..], n - 1, once);
    }
  }
}
