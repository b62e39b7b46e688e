/**
 * The two endpoints of the random context provider
 * (proxy/controllers/random.js:12-40), with the HTTP response replaced by
 * the value the endpoint sends and `Math.random` by an explicit source of
 * draws, of which the endpoint uses those from `at` on.
 */
module Handlers {
  import opened JsonValues
  import opened Strings
  import opened TitleCase
  import opened FillerText
  import opened Generator
  import opened Ngsi

  /**
   * The formatter `queryContext` hands to `formatAsV1Response`: the attribute
   * named `attr`, typed by the title-cased `type` parameter, with a random
   * value for that type drawn from `pos` on.
   */
  function RandomAttribute(rng: Random, attr: string, req: Request, pos: nat): (result: (Attribute, nat))
    ensures result.0.name == attr
    ensures result.0.attrType == ToTitleCase(req.typeParam)
    ensures result.0.value == Generated(req.typeParam, rng, pos).value
    ensures result.1 == Generated(req.typeParam, rng, pos).next
    ensures Conforms(req.typeParam, result.0.value)
    ensures pos <= result.1
  {
    GeneratedConforms(req.typeParam, rng, pos);
    var generated := Generated(req.typeParam, rng, pos);
    (Attribute(attr, ToTitleCase(req.typeParam), generated.value), generated.next)
  }

  /** The formatter closure of `queryContext` over the draws `rng`. */
  function RandomFormatter(rng: Random): (string, Request, nat) -> (Attribute, nat)
  {
    (attr, r, pos) => RandomAttribute(rng, attr, r, pos)
  }

  /** The formatter's draws only move forward: after `k` attributes the cursor has not gone back. */
  lemma {:induction false} CallsAdvance(rng: Random, req: Request, names: seq<string>, pos: nat, k: nat)
    requires k <= |names|
    ensures pos <= Calls(RandomFormatter(rng), req, names, pos, k)
  {
    if k > 0 {
      CallsAdvance(rng, req, names, pos, k - 1);
    }
  }

  /** Across entities too, the draws only move forward. */
  lemma {:induction false} RoundsAdvance(rng: Random, req: Request, names: seq<string>, at: nat, i: nat)
    ensures at <= Rounds(RandomFormatter(rng), req, names, at, i)
  {
    if i > 0 {
      var f := RandomFormatter(rng);
      RoundsAdvance(rng, req, names, at, i - 1);
      CallsAdvance(rng, req, names, Rounds(f, req, names, at, i - 1), |names|);
    }
  }

  /**
   * The first draw the attribute `k` of entity `i` uses: every earlier entity
   * and every earlier attribute of entity `i` has drawn its own value before.
   */
  function DrawsBefore(rng: Random, req: Request, at: nat, i: nat, k: nat): nat
    requires k <= |Items(req.body.attributes)|
  {
    var names := Items(req.body.attributes);
    Calls(RandomFormatter(rng), req, names, Rounds(RandomFormatter(rng), req, names, at, i), k)
  }

  /**
   * `queryContext`: one context response per requested entity, in order, each
   * with one attribute per requested name, in order, named after it, typed by
   * the title-cased `type` parameter and holding a fresh random value of
   * that type, generated from the draw where the previous one stopped.
   */
  method QueryContext(req: Request, rng: Random, at: nat) returns (response: QueryContextResponse, next: nat)
    ensures var ents := Items(req.body.entities);
      && |response.contextResponses| == |ents|
      && forall i :: 0 <= i < |ents| ==>
           var ce := response.contextResponses[i].contextElement;
           && ce.id == ents[i].id && ce.entityType == ents[i].entityType && ce.isPattern == "false"
           && response.contextResponses[i].statusCode == StatusCode("200", "OK")
           && |ce.attributes| == |Items(req.body.attributes)|
           && forall k :: 0 <= k < |ce.attributes| ==>
                && ce.attributes[k].name == Items(req.body.attributes)[k]
                && ce.attributes[k].attrType == ToTitleCase(req.typeParam)
                && ce.attributes[k].value == Generated(req.typeParam, rng, DrawsBefore(rng, req, at, i, k)).value
                && Conforms(req.typeParam, ce.attributes[k].value)
    ensures next == DrawsBefore(rng, req, at, |Items(req.body.entities)|, 0)
    ensures at <= next
  {
    var formatter := RandomFormatter(rng);
    response, next := FormatAsV1Response(req, formatter, at);
    RoundsAdvance(rng, req, Items(req.body.attributes), at, |Items(req.body.entities)|);
  }

  /** The object `healthCheck` sends: one value for each of four type tags. */
  datatype HealthReport = HealthReport(boolean: Json, number: Json, structuredValue: Json, text: Json)

  /** A health report and the first draw left unused after it. */
  datatype HealthOutcome = HealthOutcome(report: HealthReport, next: nat)

  /**
   * What `healthCheck` sends when its draws start at `at`: the values for the
   * tags `boolean`, `number`, `structuredValue` and `text`, generated in that
   * order, each starting where the previous one stopped.
   */
  function HealthChecked(rng: Random, at: nat): HealthOutcome
  {
    var boolean := Generated("boolean", rng, at);
    var number := Generated("number", rng, boolean.next);
    var structured := Generated("structuredValue", rng, number.next);
    var text := Generated("text", rng, structured.next);
    HealthOutcome(HealthReport(boolean.value, number.value, structured.value, text.value), text.next)
  }

  /** The tags `healthCheck` passes, other than `structuredValue`, are already lower-case. */
  lemma HealthTags()
    ensures ToLowerCase("boolean") == "boolean"
    ensures ToLowerCase("number") == "number"
    ensures ToLowerCase("text") == "text"
  {
    ToLowerCaseOfLower("boolean");
    ToLowerCaseOfLower("number");
    ToLowerCaseOfLower("text");
  }

  /**
   * The health report: the boolean is `true` exactly when the first draw is at
   * least one half, the number is `Math.floor(r * 43)` for the second draw,
   * the `structuredValue` entry is `null` (the tag is lower-cased before it is
   * compared with a label that holds a capital), and the text is a filler
   * sentence whose word count is set by the third draw.
   */
  lemma HealthCheckedShape(rng: Random, at: nat)
    ensures var result := HealthChecked(rng, at);
      && result.report.boolean == Bool(rng(at) >= 0.5)
      && result.report.number == Number(NumberDraw(rng(at + 1))) && 0 <= result.report.number.n <= 42
      && result.report.structuredValue == Null
      && result.report.text.Str? && FillerSentence(result.report.text.s)
      && result.next == at + 3 + WordCount(rng(at + 2))
  {
    HealthTags();
    BooleanCase("boolean", rng, at);
    NumberCase("number", rng, at + 1);
    OtherCase("structuredValue", rng, at + 2);
    TextCase("text", rng, at + 2);
  }

  /**
   * `healthCheck`: one random value of each of the types `boolean`, `number`,
   * `structuredValue` and `text`, generated in that order, as
   * HealthCheckedShape describes them. HealthChecked is the same sequence on
   * the specification function `Generated`; this method makes the four calls
   * to the method `GenerateValue`, whose text case runs the loop `BuildText`,
   * and is proved to agree with it.
   */
  method HealthCheck(rng: Random, at: nat) returns (report: HealthReport, next: nat)
    ensures HealthOutcome(report, next) == HealthChecked(rng, at)
    ensures report.boolean == Bool(rng(at) >= 0.5)
    ensures report.number == Number(NumberDraw(rng(at + 1)))
    ensures report.structuredValue == Null
    ensures report.text.Str? && FillerSentence(report.text.s)
    ensures next == at + 3 + WordCount(rng(at + 2))
  {
    var boolean, afterBoolean := GenerateValue("boolean", rng, at);
    var number, afterNumber := GenerateValue("number", rng, afterBoolean);
    var structured, afterStructured := GenerateValue("structuredValue", rng, afterNumber);
    var text, afterText := GenerateValue("text", rng, afterStructured);
    report := HealthReport(boolean, number, structured, text);
    next := afterText;
    HealthCheckedShape(rng, at);
  }
}
