/**
 * `cleanString`: trim the input, then three regular-expression passes, then
 * `strip_tags`. Each pass is modelled as its own function:
 *   1. `/:|<\/(li|p)>/` becomes ","   (ReplaceClosers)
 *   2. `/&#?[a-z0-9]+;/i` is deleted  (RemoveEntities)
 *   3. `/\s/` becomes " "              (SpacesToBlank)
 * `strip_tags` is abstract: which characters it treats as markup is the
 * parameter `tagged`, and it only ever deletes characters.
 */
module TextCleaner {
  import opened PhpStrings

  /** `ltrim`: drops the leading trim characters and nothing else. */
  function TrimLeft(s: string): (r: string)
    ensures |r| <= |s| && r == s[|s| - |r|..]
    ensures forall k :: 0 <= k < |s| - |r| ==> IsTrimChar(s[k])
    ensures |r| > 0 ==> !IsTrimChar(r[0])
  {
    if |s| > 0 && IsTrimChar(s[0]) then TrimLeft(s[1..]) else s
  }

  /** `rtrim`: drops the trailing trim characters and nothing else. */
  function TrimRight(s: string): (r: string)
    ensures |r| <= |s| && r == s[..|r|]
    ensures forall k :: |r| <= k < |s| ==> IsTrimChar(s[k])
    ensures |r| > 0 ==> !IsTrimChar(r[|r| - 1])
  {
    if |s| > 0 && IsTrimChar(s[|s| - 1]) then TrimRight(s[..|s| - 1]) else s
  }

  /** `trim` */
  function Trim(s: string): string {
    TrimRight(TrimLeft(s))
  }

  /** What `trim` leaves is a contiguous slice bounded by non-trim characters. */
  lemma TrimIsSlice(s: string)
    ensures exists i, j :: 0 <= i <= j <= |s| && Trim(s) == s[i..j]
    ensures |Trim(s)| > 0 ==> !IsTrimChar(Trim(s)[0]) && !IsTrimChar(Trim(s)[|Trim(s)| - 1])
  {
    var l := TrimLeft(s);
    var i := |s| - |l|;
    var j := i + |Trim(s)|;
    assert l == s[i..];
    assert Trim(s) == l[..|Trim(s)|];
    assert Trim(s) == s[i..j];
  }

  /** Pass 1: every ':' and every "</li>" or "</p>" becomes ',', scanning left to right. */
  function ReplaceClosers(s: string): (r: string)
    ensures ':' !in r
    ensures |r| <= |s|
    decreases |s|
  {
    if |s| == 0 then []
    else if s[0] == ':' then [','] + ReplaceClosers(s[1..])
    else if |s| >= 5 && s[..5] == "</li>" then [','] + ReplaceClosers(s[5..])
    else if |s| >= 4 && s[..4] == "</p>" then [','] + ReplaceClosers(s[4..])
    else [s[0]] + ReplaceClosers(s[1..])
  }

  /** Text without ':' or '<' offers no match to pass 1 and goes through it unchanged. */
  lemma {:induction false} ReplaceClosersSkipsPlain(a: string, t: string)
    requires ':' !in a && '<' !in a
    ensures ReplaceClosers(a + t) == a + ReplaceClosers(t)
    decreases |a|
  {
    if |a| > 0 {
      var u := a + t;
      assert u[0] == a[0] && a[0] != ':' && a[0] != '<';
      assert |u| >= 5 ==> u[..5][0] != '<';
      assert |u| >= 4 ==> u[..4][0] != '<';
      assert ReplaceClosers(u) == [u[0]] + ReplaceClosers(u[1..]);
      assert u[1..] == a[1..] + t;
      ReplaceClosersSkipsPlain(a[1..], t);
      ConsThenAppend(a, ReplaceClosers(t));
    } else {
      assert a + t == t;
    }
  }

  lemma ColonBecomesComma(a: string, t: string)
    requires ':' !in a && '<' !in a
    ensures ReplaceClosers(a + ":" + t) == a + "," + ReplaceClosers(t)
  {
    ReplaceClosersSkipsPlain(a, ":" + t);
    assert a + ":" + t == a + (":" + t);
    assert (":" + t)[1..] == t;
  }

  lemma ListCloserBecomesComma(a: string, t: string)
    requires ':' !in a && '<' !in a
    ensures ReplaceClosers(a + "</li>" + t) == a + "," + ReplaceClosers(t)
  {
    var u := "</li>" + t;
    ReplaceClosersSkipsPlain(a, u);
    assert a + "</li>" + t == a + u;
    assert u[0] == '<' && u[..5] == "</li>" && u[5..] == t;
  }

  lemma ParagraphCloserBecomesComma(a: string, t: string)
    requires ':' !in a && '<' !in a
    ensures ReplaceClosers(a + "</p>" + t) == a + "," + ReplaceClosers(t)
  {
    var u := "</p>" + t;
    ReplaceClosersSkipsPlain(a, u);
    assert a + "</p>" + t == a + u;
    assert u[0] == '<' && u[..4] == "</p>" && u[4..] == t;
    assert |u| >= 5 ==> u[..5][2] == 'p';
  }

  /** After plain text, each of ":", "</li>" and "</p>" turns into a single ','. */
  lemma ClosersBecomeCommas(a: string, t: string)
    requires ':' !in a && '<' !in a
    ensures ReplaceClosers(a + ":" + t) == a + "," + ReplaceClosers(t)
    ensures ReplaceClosers(a + "</li>" + t) == a + "," + ReplaceClosers(t)
    ensures ReplaceClosers(a + "</p>" + t) == a + "," + ReplaceClosers(t)
  {
    ColonBecomesComma(a, t);
    ListCloserBecomesComma(a, t);
    ParagraphCloserBecomesComma(a, t);
  }

  /** Length of the run of ASCII letters and digits at the start of `s`. */
  function AlnumRun(s: string): (n: nat)
    ensures n <= |s|
    ensures forall k :: 0 <= k < n ==> IsAsciiAlnum(s[k])
    ensures n < |s| ==> !IsAsciiAlnum(s[n])
  {
    if |s| > 0 && IsAsciiAlnum(s[0]) then 1 + AlnumRun(s[1..]) else 0
  }

  /** An entity token: '&', an optional '#', one or more letters or digits, ';'. */
  predicate IsEntity(t: string) {
    var j := if |t| > 1 && t[1] == '#' then 2 else 1;
    |t| >= 3 && t[0] == '&' && t[|t| - 1] == ';' && j < |t| - 1
    && forall k :: j <= k < |t| - 1 ==> IsAsciiAlnum(t[k])
  }

  /**
   * Length of the entity the pattern matches at the start of `s`, or 0.
   * `[a-z0-9]+` is greedy and ';' is not in the class, so the only candidate
   * end is just after the maximal alphanumeric run.
   */
  function EntityLength(s: string): (n: nat)
    ensures n <= |s|
    ensures n > 0 ==> IsEntity(s[..n])
  {
    if |s| == 0 || s[0] != '&' then 0
    else
      var j := if |s| > 1 && s[1] == '#' then 2 else 1;
      var k := j + AlnumRun(s[j..]);
      if k > j && k < |s| && s[k] == ';' then
        var t := s[..k + 1];
        assert forall m :: j <= m < k ==> IsAsciiAlnum(t[m]) by {
          forall m | j <= m < k ensures IsAsciiAlnum(t[m]) {
            assert t[m] == s[j..][m - j];
          }
        }
        k + 1
      else 0
  }

  /** Pass 2: deletes each entity token found scanning left to right; other characters stay in order. */
  function RemoveEntities(s: string): (r: string)
    ensures IsSubsequence(r, s)
    decreases |s|
  {
    if |s| == 0 then []
    else
      var n := EntityLength(s);
      if n > 0 then
        var r := RemoveEntities(s[n..]);
        SubsequenceOfSuffix(r, s, n);
        r
      else
        var r := RemoveEntities(s[1..]);
        assert ([s[0]] + r)[1..] == r;
        [s[0]] + r
  }

  /** Text without '&' has no entity, so pass 2 leaves it alone. */
  lemma {:induction false} RemoveEntitiesPlain(s: string)
    requires '&' !in s
    ensures RemoveEntities(s) == s
    decreases |s|
  {
    if |s| > 0 {
      assert s[0] != '&';
      RemoveEntitiesPlain(s[1..]);
      assert [s[0]] + s[1..] == s;
    }
  }

  /** The alphanumeric run ends at the first character outside the class. */
  lemma {:induction false} AlnumRunEndsAt(u: string, n: nat)
    requires n < |u| && !IsAsciiAlnum(u[n])
    requires forall k :: 0 <= k < n ==> IsAsciiAlnum(u[k])
    ensures AlnumRun(u) == n
  {
    if n > 0 {
      assert forall k :: 0 <= k < n - 1 ==> IsAsciiAlnum(u[1..][k]) by {
        forall k | 0 <= k < n - 1 ensures IsAsciiAlnum(u[1..][k]) {
          assert u[1..][k] == u[k + 1];
        }
      }
      AlnumRunEndsAt(u[1..], n - 1);
    }
  }

  /** An entity token at the front is matched whole, whatever follows it. */
  lemma EntityLengthOfEntity(e: string, t: string)
    requires IsEntity(e)
    ensures EntityLength(e + t) == |e|
  {
    var s := e + t;
    var j := if |e| > 1 && e[1] == '#' then 2 else 1;
    assert s[0] == '&' && s[1] == e[1];
    var u := s[j..];
    forall k | 0 <= k < |e| - 1 - j ensures IsAsciiAlnum(u[k]) {
      assert u[k] == e[j + k];
    }
    assert u[|e| - 1 - j] == ';';
    AlnumRunEndsAt(u, |e| - 1 - j);
  }

  /** Pass 2 deletes an entity token and carries on after it. */
  lemma EntityDeleted(e: string, t: string)
    requires IsEntity(e)
    ensures RemoveEntities(e + t) == RemoveEntities(t)
  {
    EntityLengthOfEntity(e, t);
    assert (e + t)[|e|..] == t;
  }

  lemma ConsThenAppend(a: string, b: string)
    requires |a| > 0
    ensures [a[0]] + (a[1..] + b) == a + b
  {
    assert a == [a[0]] + a[1..];
  }

  /** A character other than '&' cannot start an entity and is kept. */
  lemma RemoveEntitiesKeeps(u: string)
    requires |u| > 0 && u[0] != '&'
    ensures RemoveEntities(u) == [u[0]] + RemoveEntities(u[1..])
  {
    assert EntityLength(u) == 0;
  }

  /** Text without '&' goes through pass 2 unchanged, whatever follows it. */
  lemma {:induction false} RemoveEntitiesSkipsPlain(a: string, t: string)
    requires '&' !in a
    ensures RemoveEntities(a + t) == a + RemoveEntities(t)
    decreases |a|
  {
    if |a| == 0 {
      assert a + t == t;
    } else {
      var u := a + t;
      var rest := RemoveEntities(t);
      assert a[0] in a;
      assert u[0] == a[0];
      RemoveEntitiesKeeps(u);
      assert u[1..] == a[1..] + t;
      assert forall c :: c in a[1..] ==> c in a;
      RemoveEntitiesSkipsPlain(a[1..], t);
      ConsThenAppend(a, rest);
    }
  }

  /** After plain text, an entity token such as "&amp;" or "&#38;" disappears. */
  lemma EntityAfterPlainDeleted(a: string, e: string, t: string)
    requires '&' !in a && IsEntity(e)
    ensures RemoveEntities(a + e + t) == a + RemoveEntities(t)
  {
    assert a + e + t == a + (e + t);
    RemoveEntitiesSkipsPlain(a, e + t);
    EntityDeleted(e, t);
  }

  /** Pass 3: each whitespace character becomes one blank; runs are not collapsed. */
  function SpacesToBlank(s: string): string {
    seq(|s|, i requires 0 <= i < |s| => if IsAsciiSpace(s[i]) then ' ' else s[i])
  }

  /** Pass 3 keeps the length and every non-whitespace character, and leaves no whitespace but ' '. */
  lemma SpacesToBlankPointwise(s: string)
    ensures |SpacesToBlank(s)| == |s|
    ensures forall i :: 0 <= i < |s| && !IsAsciiSpace(s[i]) ==> SpacesToBlank(s)[i] == s[i]
    ensures forall i :: 0 <= i < |s| && IsAsciiSpace(s[i]) ==> SpacesToBlank(s)[i] == ' '
  {
  }

  /**
   * A run of whitespace, of any length, becomes a run of blanks of the same
   * length: runs are not collapsed to one blank.
   */
  lemma RunsAreNotCollapsed(s: string, i: nat, j: nat)
    requires i <= j <= |s|
    requires forall k :: i <= k < j ==> IsAsciiSpace(s[k])
    ensures |SpacesToBlank(s)| == |s|
    ensures SpacesToBlank(s)[i..j] == seq(j - i, _ => ' ')
  {
  }

  /** The abstract `strip_tags`: keeps the characters `tagged` does not mark, in order. */
  function StripTags(s: string, tagged: (string, nat) -> bool): (r: string)
    ensures IsSubsequence(r, s)
  {
    StripFrom(s, tagged, 0)
  }

  function StripFrom(s: string, tagged: (string, nat) -> bool, i: nat): (r: string)
    requires i <= |s|
    ensures IsSubsequence(r, s[i..])
    decreases |s| - i
  {
    if i == |s| then []
    else
      var rest := StripFrom(s, tagged, i + 1);
      assert s[i..][1..] == s[i + 1..];
      if tagged(s, i) then rest
      else
        assert ([s[i]] + rest)[1..] == rest;
        [s[i]] + rest
  }

  /** `cleanString` */
  function CleanString(text: string, tagged: (string, nat) -> bool): (r: string)
    ensures ':' !in r
    ensures |r| <= |Trim(text)|
    ensures forall c :: c in r && IsAsciiSpace(c) ==> c == ' '
  {
    var t := Trim(text);
    var p1 := ReplaceClosers(t);
    var p2 := RemoveEntities(p1);
    var p3 := SpacesToBlank(p2);
    var r := StripTags(p3, tagged);
    SubsequenceChars(p2, p1);
    SubsequenceChars(r, p3);
    r
  }
}
