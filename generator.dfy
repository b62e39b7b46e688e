/**
 * `generateValue` (proxy/controllers/random.js:54-93): a random JSON value
 * whose kind is chosen by a type tag, matched after lower-casing the tag.
 *
 * `Math.random` becomes an explicit source: `rng(k)` is the value of the k-th
 * call, an exact real in [0, 1). A generation that starts at draw `at`
 * reports the first draw it leaves unused, so that calls can be chained.
 */
module Generator {
  import opened Strings
  import opened JsonValues
  import opened FillerText

  /** A value of `Math.random()`. */
  type Unit = r: real | 0.0 <= r < 1.0

  /** The successive values of `Math.random()`. */
  type Random = nat -> Unit

  // The filler paragraph of random.js:68-72, one constant per source line.
  // In the source every word, the last one included, is followed by one space.

  const Line69: seq<string> :=
    [ "lorem", "ipsum", "dolor", "sit", "amet,", "consectetur",
      "adipisicing", "elit,", "sed", "do", "eiusmod", "tempor" ]

  const Line70: seq<string> :=
    [ "incididunt", "ut", "labore", "et", "dolore", "magna",
      "aliqua.", "enim", "ad", "minim", "veniam", "quis",
      "nostrud", "exercitation", "ullamco", "laboris", "nisi" ]

  const Line71: seq<string> :=
    [ "ut", "aliquip", "ex", "ea", "commodo", "consequat.",
      "duis", "aute", "irure", "dolor", "in", "reprehenderit",
      "in", "voluptate", "velit", "esse", "cillum", "dolore" ]

  const Line72: seq<string> :=
    [ "eu", "fugiat", "nulla", "pariatur.", "excepteur", "sint",
      "occaecat", "cupidatat", "non", "proident,", "sunt", "in",
      "culpa", "qui", "officia", "deserunt", "mollit" ]

  const LoremWords: seq<string> := Line69 + Line70 + Line71 + Line72

  /** Every word followed by one space. */
  function Terminated(ws: seq<string>): string
  {
    if ws == [] then "" else ws[0] + " " + Terminated(ws[1..])
  }

  /** The paragraph `loremIpsum`. */
  const LoremIpsum: string := Terminated(LoremWords)

  /** `loremIpsum.split(' ')`, as LoremIpsumSplit shows: the 64 words and a trailing empty string. */
  const WordBank: seq<string> := LoremWords + [""]

  lemma FillerLine69() ensures forall i :: 0 <= i < |Line69| ==> IsFillerWord(Line69[i]) {}
  lemma FillerLine70() ensures forall i :: 0 <= i < |Line70| ==> IsFillerWord(Line70[i]) {}
  lemma FillerLine71() ensures forall i :: 0 <= i < |Line71| ==> IsFillerWord(Line71[i]) {}
  lemma FillerLine72() ensures forall i :: 0 <= i < |Line72| ==> IsFillerWord(Line72[i]) {}

  lemma FillerLines()
    ensures |LoremWords| == 64 && |WordBank| == 65
    ensures forall w :: w in LoremWords ==> IsFillerWord(w)
    ensures ValidBank(WordBank) && WordBank[..64] == LoremWords
  {
    FillerLine69();
    FillerLine70();
    FillerLine71();
    FillerLine72();
    forall i | 0 <= i < 64 ensures IsFillerWord(WordBank[i]) {
      assert WordBank[i] == LoremWords[i];
    }
  }

  /** The word bank is one the text loop can draw from. */
  lemma WordBankValid()
    ensures ValidBank(WordBank)
  {
    FillerLines();
  }

  lemma {:induction false} TerminatedIsJoin(ws: seq<string>)
    ensures Terminated(ws) == Join(ws + [""], ' ')
  {
    if ws != [] {
      TerminatedIsJoin(ws[1..]);
      assert (ws + [""])[1..] == ws[1..] + [""];
    }
  }

  /**
   * Splitting the paragraph at spaces gives its 64 words and then one empty
   * string, left behind by the trailing space.
   */
  lemma LoremIpsumSplit()
    ensures Split(LoremIpsum, ' ') == WordBank
    ensures |WordBank| == 65 && WordBank[64] == ""
  {
    FillerLines();
    TerminatedIsJoin(LoremWords);
    forall i | 0 <= i < |WordBank|
      ensures ' ' !in WordBank[i]
    {
      if i < |LoremWords| {
        assert WordBank[i] in LoremWords;
      }
    }
    SplitJoin(WordBank, ' ');
  }

  /** `Math.floor(r * n)`. */
  function Scale(r: Unit, n: nat): (k: nat)
    requires n > 0
    ensures k < n
  {
    assert 0.0 <= r * n as real < n as real by {
      assert (1.0 - r) * n as real > 0.0;
    }
    (r * n as real).Floor
  }

  /** The number drawn by `Math.floor(Math.random() * 43)`. */
  function NumberDraw(r: Unit): (n: int)
    ensures 0 <= n <= 42
  {
    Scale(r, 43)
  }

  /** The word count `Math.floor(Math.random() * 10) + 5`. */
  function WordCount(r: Unit): (n: nat)
    ensures 5 <= n <= 14
  {
    Scale(r, 10) + 5
  }

  /**
   * A word bank the text loop can draw from: the entries it can reach, all
   * but the last, are filler words. The real bank is one (FillerLines).
   */
  ghost predicate ValidBank(bank: seq<string>)
  {
    |bank| >= 2 && forall i :: 0 <= i < |bank| - 1 ==> IsFillerWord(bank[i])
  }

  /** The index `Math.floor(Math.random() * (bank.length - 1))`: never the last one. */
  function WordIndex(bank: seq<string>, r: Unit): (i: nat)
    requires |bank| >= 2
    ensures i < |bank| - 1
  {
    Scale(r, |bank| - 1)
  }

  /** The word `bank[Math.floor(r * (bank.length - 1))]` drawn by `r`. */
  function DrawnWord(bank: seq<string>, r: Unit): string
    requires |bank| >= 2
  {
    bank[WordIndex(bank, r)]
  }

  /** A drawn word is a filler word of the bank, never its last entry. */
  lemma DrawnFiller(bank: seq<string>, r: Unit)
    requires ValidBank(bank)
    ensures IsFillerWord(DrawnWord(bank, r))
    ensures DrawnWord(bank, r) in bank[..|bank| - 1]
  {
    var i := WordIndex(bank, r);
    assert bank[..|bank| - 1][i] == bank[i];
  }

  /** The words the text loop draws by `rng(from)`, `rng(from + 1)`, ..., `rng(from + k - 1)`. */
  function Drawn(bank: seq<string>, rng: Random, from: nat, k: nat): (words: seq<string>)
    requires |bank| >= 2
    ensures |words| == k
  {
    if k == 0 then [] else Drawn(bank, rng, from, k - 1) + [DrawnWord(bank, rng(from + k - 1))]
  }

  /** The i-th drawn word is the word drawn by `rng(from + i)`. */
  lemma {:induction false} DrawnAt(bank: seq<string>, rng: Random, from: nat, k: nat, i: nat)
    requires |bank| >= 2 && i < k
    ensures Drawn(bank, rng, from, k)[i] == DrawnWord(bank, rng(from + i))
  {
    if i < k - 1 {
      DrawnAt(bank, rng, from, k - 1, i);
    }
  }

  /** From a valid bank, every drawn word is a filler word and an entry other than the last. */
  lemma DrawnFillers(bank: seq<string>, rng: Random, from: nat, k: nat)
    requires ValidBank(bank)
    ensures forall i :: 0 <= i < k ==>
      IsFillerWord(Drawn(bank, rng, from, k)[i]) && Drawn(bank, rng, from, k)[i] in bank[..|bank| - 1]
  {
    forall i | 0 <= i < k
      ensures IsFillerWord(Drawn(bank, rng, from, k)[i]) && Drawn(bank, rng, from, k)[i] in bank[..|bank| - 1]
    {
      DrawnAt(bank, rng, from, k, i);
      DrawnFiller(bank, rng(from + i));
    }
  }

  /** A generated value and the first draw left unused after it. */
  datatype Generation = Generation(value: Json, next: nat)

  /**
   * `generateValue(tag)` starting at draw `at`: the value and the first draw
   * left unused. The case label `'structuredValue'` is compared with the
   * lower-cased tag, and is kept here exactly as written.
   */
  function Generated(tag: string, rng: Random, at: nat): (result: Generation)
    ensures at <= result.next <= at + 15
  {
    var t := ToLowerCase(tag);
    if t == "boolean" then Generation(Bool(rng(at) >= 0.5), at + 1)
    else if t == "float" || t == "integer" || t == "number" then Generation(Number(NumberDraw(rng(at))), at + 1)
    else if t == "structuredValue" then Generation(Object([("somevalue", Str("this"))]), at)
    else if t == "string" || t == "text" then GeneratedText(rng, at)
    else Generation(Null, at)
  }

  /**
   * The `'string'` / `'text'` case: the word count is drawn at `at`, the words
   * after it, one draw each.
   */
  function GeneratedText(rng: Random, at: nat): (result: Generation)
    ensures result.value.Str? && FillerSentence(result.value.s)
    ensures result.next == at + 1 + WordCount(rng(at))
  {
    var n := WordCount(rng(at));
    var words := Drawn(WordBank, rng, at + 1, n);
    WordBankValid();
    DrawnFillers(WordBank, rng, at + 1, n);
    AssembleConforms(words);
    Generation(Str(Assemble(words)), at + 1 + n)
  }

  /**
   * `generateValue`: the value for the tag, starting at draw `at`, and the
   * first draw left unused. The switch is the one of `Generated`; the method
   * exists because its text case runs the loop of random.js:76-88 as a loop
   * (`BuildText`), which the function only describes.
   */
  method GenerateValue(tag: string, rng: Random, at: nat) returns (v: Json, next: nat)
    ensures Generation(v, next) == Generated(tag, rng, at)
    ensures Conforms(tag, v)
  {
    var t := ToLowerCase(tag);
    if t == "boolean" {
      v, next := Bool(rng(at) >= 0.5), at + 1;
    } else if t == "float" || t == "integer" || t == "number" {
      v, next := Number(NumberDraw(rng(at))), at + 1;
    } else if t == "structuredValue" {
      v, next := Object([("somevalue", Str("this"))]), at;
    } else if t == "string" || t == "text" {
      v, next := GenerateText(rng, at);
    } else {
      v, next := Null, at;
    }
    GeneratedConforms(tag, rng, at);
  }

  /** The `'string'` / `'text'` case: draw the word count, then run the text loop over the word bank. */
  method GenerateText(rng: Random, at: nat) returns (v: Json, next: nat)
    ensures Generation(v, next) == GeneratedText(rng, at)
  {
    var randy := WordCount(rng(at));
    var ret := BuildText(WordBank, rng, at + 1, randy);
    v, next := Str(ret), at + 1 + randy;
  }

  /**
   * The loop of random.js:76-88 over a word bank: `randy` times, draw a word,
   * capitalise it when the text so far ends in `.` or `?`, and append it after
   * one space.
   */
  method BuildText(bank: seq<string>, rng: Random, from: nat, randy: nat) returns (ret: string)
    requires |bank| >= 2
    ensures ret == Assemble(Drawn(bank, rng, from, randy))
  {
    ret := "";
    for i := 0 to randy
      invariant ret == Assemble(Drawn(bank, rng, from, i))
    {
      var newTxt := bank[WordIndex(bank, rng(from + i))];
      ghost var w := newTxt;
      assert w == DrawnWord(bank, rng(from + i));
      var last := Substring(ret, |ret| - 1, |ret|);
      if last == "." || last == "?" {
        newTxt := ToUpperCase(Substring(newTxt, 0, 1)) + Substring(newTxt, 1, |newTxt|);
      }
      assert newTxt == if EndsSentence(ret) then CapitalizeFirst(w) else w;
      ghost var words := Drawn(bank, rng, from, i + 1);
      assert words[..i] == Drawn(bank, rng, from, i) && words[i] == w;
      assert ret + " " + newTxt == Assemble(words);
      ret := ret + " " + newTxt;
    }
  }

  // ---------------------------------------------------------------------------
  // What each tag produces

  /** The documented shape of the value for a tag, whatever the draws. */
  ghost predicate Conforms(tag: string, v: Json)
  {
    var t := ToLowerCase(tag);
    if t == "boolean" then v.Bool?
    else if t == "float" || t == "integer" || t == "number" then v.Number? && 0 <= v.n <= 42
    else if t == "string" || t == "text" then v.Str? && FillerSentence(v.s)
    else v == Null
  }

  /** No lower-cased tag equals the case label `'structuredValue'`, which holds a capital V. */
  lemma LowerCaseMissesStructuredValue(tag: string)
    ensures ToLowerCase(tag) != "structuredValue"
  {
    if |tag| == 15 {
      assert ToLowerCase(tag)[10] == LowerChar(tag[10]);
    }
  }

  /**
   * Every token of a `'string'` / `'text'` value is a word of the paragraph,
   * capitalised when the token before it ends a sentence.
   */
  lemma GeneratedTextFromBank(rng: Random, at: nat)
    ensures var s := GeneratedText(rng, at).value.s;
      |s| > 0 && var tokens := Split(s[1..], ' ');
      forall i :: 0 <= i < |tokens| ==> PoolToken(LoremWords, tokens, i)
  {
    var n := WordCount(rng(at));
    FillerLines();
    DrawnFillers(WordBank, rng, at + 1, n);
    AssembleFromPool(LoremWords, Drawn(WordBank, rng, at + 1, n));
  }

  /** Every tag yields the documented shape; in particular `'structuredValue'` yields `null`. */
  lemma GeneratedConforms(tag: string, rng: Random, at: nat)
    ensures Conforms(tag, Generated(tag, rng, at).value)
  {
    LowerCaseMissesStructuredValue(tag);
  }

  /** A tag that lower-cases to `boolean` yields `true` exactly when its one draw is at least one half. */
  lemma BooleanCase(tag: string, rng: Random, at: nat)
    requires ToLowerCase(tag) == "boolean"
    ensures Generated(tag, rng, at) == Generation(Bool(rng(at) >= 0.5), at + 1)
    ensures Generated(tag, rng, at).value.b <==> rng(at) >= 0.5
  {
  }

  /** The three number tags yield `Math.floor(r * 43)` for their one draw `r`, an integer from 0 to 42. */
  lemma NumberCase(tag: string, rng: Random, at: nat)
    requires ToLowerCase(tag) in {"float", "integer", "number"}
    ensures Generated(tag, rng, at) == Generation(Number(NumberDraw(rng(at))), at + 1)
    ensures 0 <= Generated(tag, rng, at).value.n <= 42
  {
  }

  /** The two text tags yield the filler text: a word count draw, then one draw per word. */
  lemma TextCase(tag: string, rng: Random, at: nat)
    requires ToLowerCase(tag) in {"string", "text"}
    ensures Generated(tag, rng, at) == GeneratedText(rng, at)
    ensures Generated(tag, rng, at).next == at + 1 + WordCount(rng(at))
  {
  }

  /** Every other tag, `structuredValue` among them, yields `null` and uses no draw. */
  lemma OtherCase(tag: string, rng: Random, at: nat)
    requires ToLowerCase(tag) !in {"boolean", "float", "integer", "number", "string", "text"}
    ensures Generated(tag, rng, at) == Generation(Null, at)
  {
    LowerCaseMissesStructuredValue(tag);
  }

  /** The tag is matched without regard to case: upper-casing it first changes nothing. */
  lemma GeneratedIgnoresCase(tag: string, rng: Random, at: nat)
    ensures Generated(ToUpperCase(tag), rng, at) == Generated(tag, rng, at)
  {
    var up := ToUpperCase(tag);
    forall i | 0 <= i < |tag| ensures ToLowerCase(up)[i] == ToLowerCase(tag)[i] {
      assert LowerChar(UpperChar(tag[i])) == LowerChar(tag[i]);
    }
    assert ToLowerCase(up) == ToLowerCase(tag);
  }

  /** Draws for which the text branch capitalises a word: 5 words, `aliqua.` first, then `lorem`. */
  function SampleDraws(k: nat): Unit
  {
    if k == 1 then 0.29 else 0.0
  }

  /** `aliqua.` is entry 18 of the bank and `lorem` entry 0. */
  lemma BankSample()
    ensures |WordBank| == 65 && WordBank[18] == "aliqua." && WordBank[0] == "lorem"
  {
    assert WordBank[18] == Line70[6];
  }

  /** SampleDraws draws 5 words: `aliqua.`, then `lorem` four times. */
  lemma SampleWords()
    ensures WordCount(SampleDraws(0)) == 5
    ensures Drawn(WordBank, SampleDraws, 1, 5) == ["aliqua.", "lorem", "lorem", "lorem", "lorem"]
  {
    BankSample();
    assert Scale(SampleDraws(1), 64) == 18 by {
      assert 18.0 <= 0.29 * 64.0 < 19.0;
    }
    var words := Drawn(WordBank, SampleDraws, 1, 5);
    forall i | 0 <= i < 5 ensures words[i] == ["aliqua.", "lorem", "lorem", "lorem", "lorem"][i] {
      DrawnAt(WordBank, SampleDraws, 1, 5, i);
    }
  }

  /**
   * The capitalising branch is reachable: with SampleDraws the text is
   * `aliqua.`, which ends a sentence, then `Lorem`, capitalised, then `lorem`
   * three times.
   */
  lemma CapitalisationReachable()
    ensures var s := GeneratedText(SampleDraws, 0).value.s;
      |s| > 0 && Split(s[1..], ' ') == ["aliqua.", "Lorem", "lorem", "lorem", "lorem"]
  {
    SampleWords();
    FillerLines();
    DrawnFillers(WordBank, SampleDraws, 1, 5);
    AssembleTokens(Drawn(WordBank, SampleDraws, 1, 5));
    CasedSample();
  }
}
