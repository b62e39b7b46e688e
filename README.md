# Random context provider — a verified model

The random context provider of the FIWARE Context-Providers tutorial answers
two HTTP requests with random data:

- **queryContext** answers an NGSI v1 context query. It returns one
  context response per requested entity. Each response holds one attribute
  per requested attribute name. Each attribute's type is the title-cased
  `type` path parameter, and its value is a random value of that type.
- **healthCheck** returns one random value for each of the tags `boolean`,
  `number`, `structuredValue` and `text`.

Random values come from `generateValue`, which switches on the lower-cased
type tag:

- a boolean that is true when the draw is at least one half;
- an integer from 0 to 42;
- a filler sentence of 5 to 14 words drawn from a lorem-ipsum paragraph,
  where a word is capitalised when the text so far ends in `.` or `?`;
- `null` for every other tag.

The model has seven modules:

| file | module | what it holds |
|---|---|---|
| `json_values.dfy` | `JsonValues` | the JSON values the provider sends: `null`, booleans, numbers, strings and objects |
| `strings.dfy` | `Strings` | ASCII case mapping, JavaScript `substring` with its clamping, and `split` / join with their round-trip lemmas |
| `title_case.dfy` | `TitleCase` | `toTitleCase` as a left-to-right scan of the matches of `\w\S*`, with a position-by-position description and idempotence |
| `filler_text.dfy` | `FillerText` | the text loop over words already drawn: how it spaces them and when it capitalises one |
| `generator.dfy` | `Generator` | `generateValue`: the word bank, the draws, the specification function `Generated`, and the methods `GenerateValue`, `GenerateText` and `BuildText` |
| `ngsi.dfy` | `Ngsi` | `formatAsV1Response` over any formatter, with the formatter's effects threaded as an explicit state |
| `handlers.dfy` | `Handlers` | the formatter closure of `queryContext`, the `queryContext` and `healthCheck` handlers |

`Math.random()` becomes an explicit source of draws, `rng: nat -> Unit`. Here
`rng(k)` is the k-th draw, an exact real in [0, 1). A generation starting at
draw `at` reports the first draw it leaves unused, so several calls chain in
the order the source makes them.

Three behaviours of the code are worth stating outright:

- The case label `'structuredValue'` (random.js:62) holds a capital `V`, but
  it is compared with the lower-cased tag (random.js:55), so it can never
  match. Every spelling of `structuredValue` falls through to `default` and
  yields `null`, including the one `healthCheck` passes. The proofs are
  `LowerCaseMissesStructuredValue`, `OtherCase` and `HealthCheckedShape`.
- The capitalising branch of the text loop (random.js:81-86) is reachable.
  The paragraph holds `aliqua.`, `consequat.` and `pariatur.`
  (random.js:70-72), and `CapitalisationReachable` exhibits draws that
  capitalise a word.
- `split(' ')` turns the space-terminated paragraph (random.js:72-73) into
  64 words and a trailing empty string (`LoremIpsumSplit`).

## Model

| member | source | states |
|---|---|---|
| Strings.ToUpperCase | proxy/controllers/random.js:47 | same length; each lower-case ASCII letter becomes the matching capital, everything else kept |
| Strings.ToLowerCase | proxy/controllers/random.js:55 | same length; each upper-case ASCII letter becomes the matching small letter, everything else kept |
| Strings.Substring | proxy/controllers/random.js:82 | never longer than the string; for in-range bounds it is exactly the slice |
| Strings.Split | proxy/controllers/random.js:73 | at least one piece, and no piece holds the separator |
| Strings.SplitJoin | proxy/controllers/random.js:73 | splitting pieces joined with a separator they do not contain gives the pieces back |
| Strings.JoinSplit | proxy/controllers/random.js:73 | joining the pieces of a split gives the string back |
| TitleCase.Capitalize | proxy/controllers/random.js:47 | the replacer keeps the length of its match |
| TitleCase.ToTitleCase | proxy/controllers/random.js:45-49 | title-casing keeps the length of the string |
| TitleCase.ToTitleCaseAt | proxy/controllers/random.js:45-49 | each position is upper-cased at the start of a match, lower-cased later in a match, and untouched outside matches |
| TitleCase.TitleCaseShape | proxy/controllers/random.js:45-49 | same length; whitespace unchanged; a match starts at a word character, which is upper-cased; later characters of a match are lower-cased; characters outside every match are unchanged |
| TitleCase.InMatchTitled | proxy/controllers/random.js:46 | title-casing never moves a match of `\w\S*` |
| TitleCase.ToTitleCaseIdempotent | proxy/controllers/random.js:45-49 | title-casing twice is title-casing once |
| TitleCase.TitleCaseNumber | proxy/controllers/random.js:34 | the `type` parameter `number` becomes the attribute type `Number` |
| FillerText.EndsSentenceIsStop | proxy/controllers/random.js:81-84 | the text so far ends a sentence exactly when its last character is `.` or `?`; the empty text does not |
| FillerText.CapitalizeFirst | proxy/controllers/random.js:85 | same length; first character upper-cased; the rest unchanged |
| FillerText.CapitalizeFirstKeepsStop | proxy/controllers/random.js:85 | capitalising a word never changes whether it ends a sentence |
| FillerText.SpacedEndsSentence | proxy/controllers/random.js:81-87 | after each iteration, the text ends a sentence exactly when its last token does |
| FillerText.AssembleIsSpaced | proxy/controllers/random.js:76-88 | the loop's text is `' ' + token` for each word in order; a token is its word, capitalised exactly when the previous word ends in `.` or `?` |
| FillerText.AssembleTokens | proxy/controllers/random.js:76-88 | for one or more filler words, the text starts with a space and splits after it into exactly those tokens |
| FillerText.CasedShape | proxy/controllers/random.js:81-87 | each token is non-empty and holds no space; it starts with a capital when the previous token ends in `.` or `?`, and with a lower-case letter otherwise |
| FillerText.AssembleConforms | proxy/controllers/random.js:75-89 | for 5 to 14 filler words, the text is a space followed by 5 to 14 such tokens |
| FillerText.AssembleFromPool | proxy/controllers/random.js:79-87 | when every word comes from a pool, every token is a pool word, capitalised only after a token that ends a sentence |
| FillerText.CasedSample | proxy/controllers/random.js:70 | after `aliqua.` the next `lorem` is capitalised, and only that one |
| Generator.FillerLines | proxy/controllers/random.js:68-72 | the paragraph has 64 words; each starts with a lower-case letter and holds no space |
| Generator.LoremIpsumSplit | proxy/controllers/random.js:68-73 | splitting the paragraph at spaces gives the 64 words and then one empty string |
| Generator.Scale | proxy/controllers/random.js:80 | `Math.floor(r * n)` lies in [0, n) for every draw |
| Generator.NumberDraw | proxy/controllers/random.js:61 | `Math.floor(Math.random() * 43)` lies in [0, 42] |
| Generator.WordCount | proxy/controllers/random.js:75 | the word count lies in [5, 14] |
| Generator.WordIndex | proxy/controllers/random.js:80 | the drawn index is never the last one |
| Generator.DrawnFiller | proxy/controllers/random.js:80 | a word drawn from a valid bank is a filler word and is never the trailing entry |
| Generator.DrawnAt | proxy/controllers/random.js:78-80 | the i-th drawn word is the one drawn by draw `from + i` |
| Generator.DrawnFillers | proxy/controllers/random.js:78-80 | every drawn word is a filler word and an entry other than the last |
| Generator.Generated | proxy/controllers/random.js:54-93 | a generation uses at most 15 draws |
| Generator.GeneratedText | proxy/controllers/random.js:66-89 | the text is a filler sentence; it uses one draw for the count and one per word |
| Generator.GenerateValue | proxy/controllers/random.js:54-93 | the method returns what `Generated` specifies, and the value has the documented shape for its tag |
| Generator.GenerateText | proxy/controllers/random.js:66-89 | the method returns what `GeneratedText` specifies |
| Generator.BuildText | proxy/controllers/random.js:76-88 | the loop's text is the drawn words assembled one iteration at a time |
| Generator.LowerCaseMissesStructuredValue | proxy/controllers/random.js:55-62 | no lower-cased tag equals the label `structuredValue` |
| Generator.GeneratedConforms | proxy/controllers/random.js:54-93 | `boolean` gives a boolean; `float`, `integer` and `number` give an integer in [0, 42]; `string` and `text` give a filler sentence; every other tag, `structuredValue` included, gives `null` |
| Generator.GeneratedTextFromBank | proxy/controllers/random.js:73-89 | every token of the text is a paragraph word, capitalised only after a token that ends a sentence; the trailing empty entry is never used |
| Generator.BooleanCase | proxy/controllers/random.js:56-57 | the boolean is true exactly when its draw is at least 0.5; it uses one draw |
| Generator.NumberCase | proxy/controllers/random.js:58-61 | the number is `floor(43 r)` for its one draw `r`, in [0, 42] |
| Generator.TextCase | proxy/controllers/random.js:66-89 | the text tags give the filler text, using 1 + word-count draws |
| Generator.OtherCase | proxy/controllers/random.js:62-65 | every other tag gives `null` and uses no draw |
| Generator.GeneratedIgnoresCase | proxy/controllers/random.js:55 | upper-casing the tag does not change the value or the draws used |
| Generator.BankSample | proxy/controllers/random.js:69-70 | bank entry 18 is `aliqua.` and entry 0 is `lorem` |
| Generator.SampleWords | proxy/controllers/random.js:75-80 | the sample draws give 5 words: `aliqua.`, then `lorem` four times |
| Generator.CapitalisationReachable | proxy/controllers/random.js:81-86 | some draws make the loop capitalise a word: the tokens are `aliqua.`, `Lorem`, `lorem`, `lorem`, `lorem` |
| Ngsi.Items | proxy/controllers/random.js:103 | `_.forEach` over a missing collection visits nothing; over an array it visits the array |
| Ngsi.Formatted | proxy/controllers/random.js:117-119 | one formatted attribute per name, in order; the m-th is the formatter's result for name m in the state left by the previous calls |
| Ngsi.Responses | proxy/controllers/random.js:103-122 | one context response per entity, in order; the j-th starts its formatter calls where entity j-1 stopped |
| Ngsi.FormatAsV1Response | proxy/controllers/random.js:98-125 | one response per entity, in order, and nothing else; each copies the entity's id and type, has `isPattern` `"false"` and status `200 OK`, and holds the formatter's result for each name in order; a missing entity list gives no responses; a missing attribute list gives empty attribute lists |
| Handlers.RandomAttribute | proxy/controllers/random.js:31-37 | the attribute has the requested name, the title-cased type, and the value `generateValue(type)` gives from the current draw, which has the shape documented for the type; the next call starts at the first draw this one left unused, which is never earlier |
| Handlers.CallsAdvance | proxy/controllers/random.js:117-119 | the formatter calls for one entity never move the draws backwards |
| Handlers.RoundsAdvance | proxy/controllers/random.js:103-122 | across entities the draws never move backwards |
| Handlers.QueryContext | proxy/controllers/random.js:30-40 | one response per entity with its id and type; one attribute per requested name, in order; each attribute has the title-cased type and a fresh `generateValue` of that type, drawn where the previous attribute's generation stopped, so its value has the documented shape |
| Handlers.HealthCheckedShape | proxy/controllers/random.js:12-20 | the boolean is `rng(at) >= 0.5`; the number is `floor(43 rng(at+1))`; `structuredValue` is `null`; the text is a filler sentence; the draws used are 3 plus the word count |
| Handlers.HealthCheck | proxy/controllers/random.js:12-20 | the method returns what `HealthChecked` specifies, which is the four values above |

## Left out

- The HTTP side of the handlers is left out: Express's `req`/`res`, `res.status(200).send(...)` and `res.send(...)`, and JSON serialisation. Each handler returns the value it would send.
- The `debug` logging is left out. It has no effect on any result.
- `Math.random` returns IEEE doubles. The model uses exact reals in [0, 1), so `Math.floor(r * n)` is exact. Float rounding is not modelled.
- Case mapping and `\w`/`\s` are ASCII only. `\w` is `[A-Za-z0-9_]`, and whitespace is space, tab, newline, vertical tab, form feed and carriage return. Unicode case mapping and Unicode whitespace are not modelled.
- Of lodash, only `_.forEach` over an array or a missing value is modelled. Iteration over plain objects is not.
- A non-string `type` makes `type.toLowerCase()` throw. The model takes the tag as a string, so this error is not modelled.
- `formatAsV1Response` pushes into `obj.contextElement.attributes` after `obj` is created. The model builds the attribute list first and then the response. Nothing else can observe `obj` in between, so the results agree.
- The formatter's calls to `Math.random` are an effect. They are modelled as a state that each call receives and returns.
- The `healthCheck` body is modelled as a `HealthReport` datatype with the four named fields, not as a general JSON object.
- The paragraph is written as four constants, one per source line. `LoremIpsumSplit` proves that splitting the paragraph text gives those words plus the trailing empty string.
