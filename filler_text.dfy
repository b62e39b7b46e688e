/**
 * How the text loop of `generateValue` (proxy/controllers/random.js:76-88)
 * strings drawn words together, independently of how they are drawn: each
 * word is appended after one space, and capitalised when the text so far
 * ends in `.` or `?`.
 */
module FillerText {
  import opened Strings

  /** A filler word: it starts with a lower-case letter and holds no space. */
  predicate IsFillerWord(w: string)
  {
    w != [] && IsLowerLetter(w[0]) && ' ' !in w
  }

  /** The last character of `w` is `.` or `?`. */
  predicate EndsWithStop(w: string)
  {
    w != [] && (w[|w| - 1] == '.' || w[|w| - 1] == '?')
  }

  /** The last character of the text, `ret.substring(ret.length - 1, ret.length)`, is `.` or `?`. */
  predicate EndsSentence(ret: string)
  {
    var last := Substring(ret, |ret| - 1, |ret|);
    last == "." || last == "?"
  }

  /** The text so far ends a sentence exactly when its last character is `.` or `?`; the empty text does not. */
  lemma EndsSentenceIsStop(ret: string)
    ensures EndsSentence(ret) == EndsWithStop(ret)
  {
    if ret != [] {
      assert Substring(ret, |ret| - 1, |ret|) == [ret[|ret| - 1]];
    } else {
      assert Substring(ret, |ret| - 1, |ret|) == [];
    }
  }

  /** `w.substring(0, 1).toUpperCase() + w.substring(1, w.length)`. */
  function CapitalizeFirst(w: string): (r: string)
    ensures |r| == |w|
    ensures w != [] ==> r[0] == UpperChar(w[0]) && r[1..] == w[1..]
  {
    ToUpperCase(Substring(w, 0, 1)) + Substring(w, 1, |w|)
  }

  /** One iteration of the loop: the word, capitalised when the text so far ends a sentence, after one space. */
  function AppendWord(ret: string, w: string): string
  {
    ret + " " + (if EndsSentence(ret) then CapitalizeFirst(w) else w)
  }

  /** The text the loop builds from `words`, one iteration per word, starting from `''`. */
  function Assemble(words: seq<string>): string
  {
    if words == [] then "" else AppendWord(Assemble(words[..|words| - 1]), words[|words| - 1])
  }

  /**
   * The i-th token of the text, described without the text: the i-th word,
   * capitalised exactly when the word before it ends a sentence.
   */
  function CasedAt(words: seq<string>, i: nat): string
    requires i < |words|
  {
    if i > 0 && EndsWithStop(words[i - 1]) then CapitalizeFirst(words[i]) else words[i]
  }

  /** All the tokens of the text built from `words`. */
  function Cased(words: seq<string>): (tokens: seq<string>)
    ensures |tokens| == |words|
  {
    if words == [] then [] else Cased(words[..|words| - 1]) + [CasedAt(words, |words| - 1)]
  }

  /** Tokens put one after the other, each after one space. */
  function Spaced(tokens: seq<string>): string
  {
    if tokens == [] then "" else Spaced(tokens[..|tokens| - 1]) + " " + tokens[|tokens| - 1]
  }

  lemma {:induction false} CasedIndex(words: seq<string>, i: nat)
    requires i < |words|
    ensures Cased(words)[i] == CasedAt(words, i)
  {
    var init := words[..|words| - 1];
    if i < |init| {
      CasedIndex(init, i);
      assert init[i] == words[i];
      if i > 0 {
        assert init[i - 1] == words[i - 1];
      }
    }
  }

  /** Capitalising never changes whether a word ends a sentence. */
  lemma CapitalizeFirstKeepsStop(w: string)
    requires w != []
    ensures EndsWithStop(CapitalizeFirst(w)) == EndsWithStop(w)
  {
    var r := CapitalizeFirst(w);
    if |w| > 1 {
      assert r[|r| - 1] == r[1..][|w| - 2] == w[|w| - 1];
    }
  }

  /** A token is as long as its word and ends a sentence exactly when its word does. */
  lemma CasedAtShape(words: seq<string>, i: nat)
    requires i < |words| && words[i] != []
    ensures |CasedAt(words, i)| == |words[i]|
    ensures EndsWithStop(CasedAt(words, i)) == EndsWithStop(words[i])
  {
    CapitalizeFirstKeepsStop(words[i]);
  }

  /** Spaced tokens end a sentence exactly when their last token does. */
  lemma SpacedEndsSentence(tokens: seq<string>)
    requires tokens != [] && tokens[|tokens| - 1] != []
    ensures EndsSentence(Spaced(tokens)) == EndsWithStop(tokens[|tokens| - 1])
  {
    var w := tokens[|tokens| - 1];
    var s := Spaced(tokens[..|tokens| - 1]) + " " + w;
    assert Spaced(tokens) == s;
    assert s[|s| - 1] == w[|w| - 1];
    var last := Substring(s, |s| - 1, |s|);
    assert last == s[|s| - 1..] == [w[|w| - 1]];
    assert (last == "." || last == "?") == (w[|w| - 1] == '.' || w[|w| - 1] == '?');
  }

  /** One more iteration of the loop spaces one more token, if the text so far was the earlier tokens, spaced. */
  lemma AssembleStep(words: seq<string>)
    requires words != [] && forall i :: 0 <= i < |words| ==> words[i] != []
    requires Assemble(words[..|words| - 1]) == Spaced(Cased(words[..|words| - 1]))
    ensures Assemble(words) == Spaced(Cased(words))
  {
    var init := words[..|words| - 1];
    var prev := Cased(init);
    var last := CasedAt(words, |words| - 1);
    var tokens := prev + [last];
    assert Cased(words) == tokens;
    assert tokens[..|tokens| - 1] == prev;
    assert Spaced(tokens) == Spaced(prev) + " " + last;
    if init != [] {
      CasedIndex(init, |init| - 1);
      CasedAtShape(init, |init| - 1);
      SpacedEndsSentence(prev);
      assert init[|init| - 1] == words[|words| - 2];
      assert EndsSentence(Spaced(prev)) == EndsWithStop(words[|words| - 2]);
    } else {
      assert Spaced(prev) == "";
      EndsSentenceIsStop("");
    }
  }

  /** The loop's text is the tokens, each after one space, as long as no word is empty. */
  lemma {:induction false} AssembleIsSpaced(words: seq<string>)
    requires forall i :: 0 <= i < |words| ==> words[i] != []
    ensures Assemble(words) == Spaced(Cased(words))
  {
    if words != [] {
      AssembleIsSpaced(words[..|words| - 1]);
      AssembleStep(words);
    }
  }

  /** Spaced tokens are a space followed by the tokens joined with spaces. */
  lemma {:induction false} SpacedIsJoin(tokens: seq<string>)
    requires tokens != []
    ensures Spaced(tokens) == " " + Join(tokens, ' ')
  {
    if |tokens| > 1 {
      var init := tokens[..|tokens| - 1];
      SpacedIsJoin(init);
      JoinSnoc(init, tokens[|tokens| - 1], ' ');
      assert init + [tokens[|tokens| - 1]] == tokens;
    }
  }

  /** Capitalising a word that holds no space leaves it without one. */
  lemma CapitalizeFirstNoSpace(w: string)
    requires w != [] && ' ' !in w && w[0] != ' '
    ensures ' ' !in CapitalizeFirst(w)
  {
    var r := CapitalizeFirst(w);
    forall j | 0 <= j < |r| ensures r[j] != ' ' {
      if j > 0 {
        assert r[j] == r[1..][j - 1] == w[j];
      }
    }
  }

  /**
   * A token of a generated text: never empty, free of spaces, and starting
   * with a capital exactly when the token before it ends a sentence (with a
   * lower-case letter otherwise).
   */
  ghost predicate FillerToken(tokens: seq<string>, i: nat)
    requires i < |tokens|
  {
    var w := tokens[i];
    && w != [] && ' ' !in w
    && if i > 0 && EndsWithStop(tokens[i - 1]) then IsUpperLetter(w[0]) else IsLowerLetter(w[0])
  }

  /** Built from filler words, every token has the shape of a filler token. */
  lemma CasedShape(words: seq<string>, i: nat)
    requires forall j :: 0 <= j < |words| ==> IsFillerWord(words[j])
    requires i < |words|
    ensures FillerToken(Cased(words), i)
  {
    var tokens := Cased(words);
    var w := words[i];
    assert IsFillerWord(w);
    CasedIndex(words, i);
    if i > 0 {
      CasedIndex(words, i - 1);
      CasedAtShape(words, i - 1);
    }
    if tokens[i] != w {
      CapitalizeFirstNoSpace(w);
    }
  }

  /**
   * The text built from one or more words that are not empty and hold no
   * space starts with a space and splits, after that space, into exactly its
   * tokens.
   */
  lemma AssembleTokens(words: seq<string>)
    requires words != []
    requires forall i :: 0 <= i < |words| ==> IsFillerWord(words[i])
    ensures var s := Assemble(words);
      |s| > 0 && s[0] == ' ' && Split(s[1..], ' ') == Cased(words)
  {
    var tokens := Cased(words);
    forall i | 0 <= i < |tokens| ensures ' ' !in tokens[i] {
      CasedShape(words, i);
    }
    AssembleIsSpaced(words);
    SpacedIsJoin(tokens);
    var s := Assemble(words);
    assert s[1..] == Join(tokens, ' ');
    SplitJoin(tokens, ' ');
  }

  /** A generated text: a space, then 5 to 14 filler tokens separated by single spaces. */
  ghost predicate FillerSentence(s: string)
  {
    && |s| > 0 && s[0] == ' '
    && var tokens := Split(s[1..], ' ');
    && 5 <= |tokens| <= 14
    && forall i :: 0 <= i < |tokens| ==> FillerToken(tokens, i)
  }

  /** The loop, run over 5 to 14 filler words, yields a filler sentence. */
  lemma AssembleConforms(words: seq<string>)
    requires 5 <= |words| <= 14
    requires forall i :: 0 <= i < |words| ==> IsFillerWord(words[i])
    ensures FillerSentence(Assemble(words))
  {
    AssembleTokens(words);
    forall i | 0 <= i < |words| ensures FillerToken(Cased(words), i) {
      CasedShape(words, i);
    }
  }

  /** A token is a word of `pool`, capitalised when the token before it ends a sentence. */
  ghost predicate PoolToken(pool: seq<string>, tokens: seq<string>, i: nat)
    requires i < |tokens|
  {
    if i > 0 && EndsWithStop(tokens[i - 1]) then
      exists w :: w in pool && tokens[i] == CapitalizeFirst(w)
    else tokens[i] in pool
  }

  /** Built from words of `pool`, every token of the text is a word of `pool`, capitalised or not. */
  lemma AssembleFromPool(pool: seq<string>, words: seq<string>)
    requires words != []
    requires forall i :: 0 <= i < |words| ==> IsFillerWord(words[i]) && words[i] in pool
    ensures var s := Assemble(words);
      |s| > 0 && var tokens := Split(s[1..], ' ');
      forall i :: 0 <= i < |tokens| ==> PoolToken(pool, tokens, i)
  {
    AssembleTokens(words);
    var tokens := Cased(words);
    forall i | 0 <= i < |tokens| ensures PoolToken(pool, tokens, i) {
      CasedIndex(words, i);
      if i > 0 {
        CasedIndex(words, i - 1);
        CasedAtShape(words, i - 1);
      }
      if i > 0 && EndsWithStop(tokens[i - 1]) {
        assert words[i] in pool && tokens[i] == CapitalizeFirst(words[i]);
      }
    }
  }

  /** After `aliqua.`, which ends a sentence, the loop capitalises `lorem`, and only that one. */
  lemma CasedSample()
    ensures Cased(["aliqua.", "lorem", "lorem", "lorem", "lorem"]) == ["aliqua.", "Lorem", "lorem", "lorem", "lorem"]
  {
    var words := ["aliqua.", "lorem", "lorem", "lorem", "lorem"];
    var tokens := ["aliqua.", "Lorem", "lorem", "lorem", "lorem"];
    assert CapitalizeFirst("lorem") == "Lorem" by {
      assert ToUpperCase("l") == "L";
    }
    forall i | 0 <= i < 5 ensures Cased(words)[i] == tokens[i] {
      CasedIndex(words, i);
    }
  }
}
