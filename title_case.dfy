/**
 * `toTitleCase` (proxy/controllers/random.js:45-49): a global replace of the regular
 * expression `\w\S*` whose replacer upper-cases the first character of each
 * match and lower-cases the rest.
 */
module TitleCase {
  import opened Strings

  /** Length of the run of non-whitespace characters that `s` starts with: what `\S*` consumes. */
  function RunLength(s: string): (n: nat)
    ensures n <= |s|
    ensures forall j :: 0 <= j < n ==> !IsSpace(s[j])
    ensures n < |s| ==> IsSpace(s[n])
  {
    if s == [] || IsSpace(s[0]) then 0 else 1 + RunLength(s[1..])
  }

  /** The replacer applied to one match `txt`: `txt.charAt(0).toUpperCase() + txt.substr(1).toLowerCase()`. */
  function Capitalize(txt: string): (r: string)
    requires txt != []
    ensures |r| == |txt|
  {
    ToUpperCase(txt[..1]) + ToLowerCase(txt[1..])
  }

  /**
   * The global replace, scanning left to right: a match can only start at a
   * word character and then runs greedily up to the next whitespace; a
   * character where no match starts is copied and the scan moves on by one.
   */
  function ToTitleCase(s: string): (r: string)
    ensures |r| == |s|
    decreases |s|
  {
    if s == [] then []
    else if IsWordChar(s[0]) then
      var n := RunLength(s);
      Capitalize(s[..n]) + ToTitleCase(s[n..])
    else [s[0]] + ToTitleCase(s[1..])
  }

  /**
   * Position `i` of `s` lies inside a match of `\w\S*`: it is not whitespace,
   * and either it is a word character or the position before it lies inside
   * a match.
   */
  predicate InMatch(s: string, i: nat)
    requires i < |s|
  {
    !IsSpace(s[i]) && (IsWordChar(s[i]) || (i > 0 && InMatch(s, i - 1)))
  }

  /** Position `i` is the first character of a match. */
  predicate MatchStart(s: string, i: nat)
    requires i < |s|
  {
    InMatch(s, i) && !(i > 0 && InMatch(s, i - 1))
  }

  /** What title-casing does to one position, described without the scan. */
  function TitledAt(s: string, i: nat): char
    requires i < |s|
  {
    if MatchStart(s, i) then UpperChar(s[i])
    else if InMatch(s, i) then LowerChar(s[i])
    else s[i]
  }

  /** The matches of a suffix are those of the whole string, when no match runs across the cut. */
  lemma {:induction false} InMatchSuffix(s: string, k: nat, i: nat)
    requires 0 < k <= i < |s|
    requires !InMatch(s, k - 1) || IsSpace(s[k])
    ensures InMatch(s, i) == InMatch(s[k..], i - k)
    decreases i
  {
    if i > k {
      InMatchSuffix(s, k, i - 1);
    }
  }

  /** Every position of the first run is inside the match that starts at 0. */
  lemma {:induction false} InMatchRun(s: string, i: nat)
    requires s != [] && IsWordChar(s[0])
    requires i < RunLength(s)
    ensures InMatch(s, i)
  {
    if i > 0 {
      InMatchRun(s, i - 1);
    }
  }

  /** Inside the leading match, the scan capitalises it. */
  lemma {:induction false} TitledInFirstRun(s: string, i: nat)
    requires s != [] && IsWordChar(s[0])
    requires i < RunLength(s)
    ensures ToTitleCase(s)[i] == TitledAt(s, i)
  {
    var n := RunLength(s);
    var r := ToTitleCase(s);
    assert r == Capitalize(s[..n]) + ToTitleCase(s[n..]);
    InMatchRun(s, i);
    if i > 0 {
      InMatchRun(s, i - 1);
      assert r[i] == ToLowerCase(s[1..n])[i - 1];
    }
  }

  /** The scan agrees, position by position, with the description by matches. */
  lemma {:induction false} ToTitleCaseAt(s: string, i: nat)
    requires i < |s|
    ensures ToTitleCase(s)[i] == TitledAt(s, i)
    decreases |s|, 1
  {
    if IsWordChar(s[0]) {
      if i < RunLength(s) {
        TitledInFirstRun(s, i);
      } else {
        TitledAfterFirstRun(s, i);
      }
    } else if i > 0 {
      TitledAfterOther(s, i);
    }
  }

  /** Cutting a prefix off at a point no match runs across leaves what title-casing does to the rest unchanged. */
  lemma TitledAtSuffix(s: string, k: nat, i: nat)
    requires 0 < k <= i < |s|
    requires !InMatch(s, k - 1) || IsSpace(s[k])
    ensures TitledAt(s, i) == TitledAt(s[k..], i - k)
  {
    assert s[k..][i - k] == s[i];
    InMatchSuffix(s, k, i);
    if i > k {
      InMatchSuffix(s, k, i - 1);
    }
  }

  /** Past the leading match the scan restarts at a whitespace character. */
  lemma {:induction false} TitledAfterFirstRun(s: string, i: nat)
    requires s != [] && IsWordChar(s[0])
    requires RunLength(s) <= i < |s|
    ensures ToTitleCase(s)[i] == TitledAt(s, i)
    decreases |s|, 0
  {
    var n := RunLength(s);
    var rest := ToTitleCase(s[n..]);
    assert ToTitleCase(s) == Capitalize(s[..n]) + rest;
    assert ToTitleCase(s)[i] == rest[i - n];
    ToTitleCaseAt(s[n..], i - n);
    TitledAtSuffix(s, n, i);
  }

  /** Past a leading character where no match starts the scan restarts one further on. */
  lemma {:induction false} TitledAfterOther(s: string, i: nat)
    requires s != [] && !IsWordChar(s[0])
    requires 0 < i < |s|
    ensures ToTitleCase(s)[i] == TitledAt(s, i)
    decreases |s|, 0
  {
    var rest := ToTitleCase(s[1..]);
    assert ToTitleCase(s) == [s[0]] + rest;
    assert ToTitleCase(s)[i] == rest[i - 1];
    ToTitleCaseAt(s[1..], i - 1);
    TitledAtSuffix(s, 1, i);
  }

  /**
   * Title-casing keeps the length and every whitespace character, upper-cases
   * the first character of each match and lower-cases its other characters;
   * characters outside every match are left alone.
   */
  lemma TitleCaseShape(s: string)
    ensures |ToTitleCase(s)| == |s|
    ensures forall i :: 0 <= i < |s| && IsSpace(s[i]) ==> ToTitleCase(s)[i] == s[i]
    ensures forall i :: 0 <= i < |s| && MatchStart(s, i) ==>
              IsWordChar(s[i]) && ToTitleCase(s)[i] == UpperChar(s[i])
    ensures forall i :: 0 <= i < |s| && InMatch(s, i) && !MatchStart(s, i) ==>
              ToTitleCase(s)[i] == LowerChar(s[i])
    ensures forall i :: 0 <= i < |s| && !InMatch(s, i) ==> ToTitleCase(s)[i] == s[i]
  {
    forall i | 0 <= i < |s| ensures ToTitleCase(s)[i] == TitledAt(s, i) {
      ToTitleCaseAt(s, i);
    }
  }

  /** Changing case never moves a match: the title-cased string has the same matches. */
  lemma {:induction false} InMatchTitled(s: string, i: nat)
    requires i < |s|
    ensures InMatch(ToTitleCase(s), i) == InMatch(s, i)
  {
    var r := ToTitleCase(s);
    ToTitleCaseAt(s, i);
    assert IsSpace(r[i]) == IsSpace(s[i]) && IsWordChar(r[i]) == IsWordChar(s[i]);
    if i > 0 {
      InMatchTitled(s, i - 1);
    }
  }

  /** Title-casing an already title-cased string changes nothing. */
  lemma ToTitleCaseIdempotent(s: string)
    ensures ToTitleCase(ToTitleCase(s)) == ToTitleCase(s)
  {
    var r := ToTitleCase(s);
    forall i | 0 <= i < |s| ensures ToTitleCase(r)[i] == r[i] {
      ToTitleCaseAt(s, i);
      ToTitleCaseAt(r, i);
      InMatchTitled(s, i);
      if i > 0 {
        InMatchTitled(s, i - 1);
      }
    }
  }

  /** The `type` parameter `"number"` gives the attribute type `"Number"`. */
  lemma TitleCaseNumber()
    ensures ToTitleCase("number") == "Number"
  {
    var s := "number";
    assert RunLength(s) == 6 by {
      assert RunLength(s[6..]) == 0;
    }
    assert s[..6] == s && s[6..] == [];
    assert Capitalize(s) == "Number" by {
      assert ToUpperCase(s[..1]) == "N";
      assert ToLowerCase(s[1..]) == "umber";
    }
  }
}
