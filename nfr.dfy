/** `NFRGenerator` of agents/nfr_agent/engine.py: the model and key defaults
    of its constructor, and in `generate` the numbered FR list, the domain
    default and the `{`..`}` fallback when the reply is not JSON as a
    whole. The chat client is an oracle and `json.loads` a parser, both
    given as parameters. */
module NfrGenerator {
  import opened Wrappers
  import opened Text

  const DEFAULT_MODEL: string := "llama-3.1-8b-instant"
  const DEFAULT_DOMAIN: string := "General software system"

  /** `model or DEFAULT_MODEL`. */
  function ChosenModel(model: string): (m: string)
    ensures m != ""
    ensures model != "" ==> m == model
  {
    if model == "" then DEFAULT_MODEL else model
  }

  /** `domain or "General software system"`: None and "" take the default. */
  function ChosenDomain(domain: Option<string>): (d: string)
    ensures d != ""
    ensures domain.Some? && domain.value != "" ==> d == domain.value
  {
    if domain.None? || domain.value == "" then DEFAULT_DOMAIN else domain.value
  }

  // ---------------------------------------------------------------------
  // The FR list
  // ---------------------------------------------------------------------

  /** One `{"id": ..., "text": ...}` entry of `fr_objs`. */
  datatype FrObj = FrObj(id: string, text: string)

  /** `f"FR-{n}"`. */
  function FrId(n: nat): string {
    "FR-" + NatToString(n)
  }

  /** Position `i` holds a requirement that `fr.strip()` keeps. */
  predicate NonBlankAt(frs: seq<string>, i: int) {
    0 <= i < |frs| && !IsBlank(frs[i])
  }

  /** The positions of the requirements that are not blank, in order. */
  function KeptIndices(frs: seq<string>): (idx: seq<nat>)
    ensures forall k :: 0 <= k < |idx| ==> idx[k] < |frs| && !IsBlank(frs[idx[k]])
    ensures forall k, l :: 0 <= k < l < |idx| ==> idx[k] < idx[l]
    ensures forall i :: NonBlankAt(frs, i) ==> i in idx
    decreases |frs|
  {
    if frs == [] then []
    else
      var init := frs[..|frs| - 1];
      var rest := KeptIndices(init);
      assert forall i :: NonBlankAt(frs, i) && i < |init| ==> NonBlankAt(init, i);
      if IsBlank(frs[|frs| - 1]) then rest else rest + [|frs| - 1]
  }

  /** The comprehension `[{"id": f"FR-{i + 1}", "text": fr.strip()} for i, fr
      in enumerate(frs) if fr.strip()]`: the k-th object is the k-th
      non-blank requirement, stripped, numbered by its position in the input
      (so blanks leave gaps in the numbering). */
  function FrObjects(frs: seq<string>): (objs: seq<FrObj>)
    ensures |objs| == |KeptIndices(frs)|
    ensures forall k :: 0 <= k < |objs| ==> objs[k] == ObjectAt(frs, KeptIndices(frs)[k])
  {
    var idx := KeptIndices(frs);
    seq(|idx|, k requires 0 <= k < |idx| => ObjectAt(frs, idx[k]))
  }

  /** The object for the requirement at position `i`. */
  function ObjectAt(frs: seq<string>, i: nat): FrObj
    requires i < |frs|
  {
    FrObj(FrId(i + 1), Strip(frs[i]))
  }

  /** Every non-blank requirement has its object, numbered by its position
      in the input plus one. */
  lemma FrObjectsNumbering(frs: seq<string>)
    ensures forall i :: 0 <= i < |frs| && !IsBlank(frs[i]) ==>
              exists k :: 0 <= k < |FrObjects(frs)| && FrObjects(frs)[k] == ObjectAt(frs, i)
  {
    var objs, idx := FrObjects(frs), KeptIndices(frs);
    forall i | 0 <= i < |frs| && !IsBlank(frs[i])
      ensures exists k :: 0 <= k < |objs| && objs[k] == ObjectAt(frs, i)
    {
      assert NonBlankAt(frs, i);
      var k :| 0 <= k < |idx| && idx[k] == i;
      assert objs[k] == ObjectAt(frs, i);
    }
  }

  /** The ids are distinct, no text is blank, and there is no object exactly
      when every requirement is blank. */
  lemma FrObjectsWellFormed(frs: seq<string>)
    ensures forall k, l :: 0 <= k < l < |FrObjects(frs)| ==> FrObjects(frs)[k].id != FrObjects(frs)[l].id
    ensures forall k :: 0 <= k < |FrObjects(frs)| ==> FrObjects(frs)[k].text != ""
    ensures FrObjects(frs) == [] <==> forall i :: 0 <= i < |frs| ==> IsBlank(frs[i])
  {
    FrIdsDistinct(frs);
    FrObjectsEmpty(frs);
  }

  /** Two objects never share an id. */
  lemma FrIdsDistinct(frs: seq<string>)
    ensures forall k, l :: 0 <= k < l < |FrObjects(frs)| ==> FrObjects(frs)[k].id != FrObjects(frs)[l].id
  {
    var objs, idx := FrObjects(frs), KeptIndices(frs);
    forall k, l | 0 <= k < l < |objs|
      ensures objs[k].id != objs[l].id
    {
      FrIdsDiffer(idx[k] + 1, idx[l] + 1);
    }
  }

  /** Different numbers give different FR ids. */
  lemma FrIdsDiffer(m: nat, n: nat)
    requires m != n
    ensures FrId(m) != FrId(n)
  {
    NatToStringInjective(m, n);
    assert FrId(m)[3..] == NatToString(m);
    assert FrId(n)[3..] == NatToString(n);
  }

  /** There is no object exactly when every requirement is blank. */
  lemma FrObjectsEmpty(frs: seq<string>)
    ensures FrObjects(frs) == [] <==> forall i :: 0 <= i < |frs| ==> IsBlank(frs[i])
  {
    var idx := KeptIndices(frs);
    if idx == [] {
      forall i | 0 <= i < |frs|
        ensures IsBlank(frs[i])
      {
        assert !NonBlankAt(frs, i);
      }
    } else {
      assert !IsBlank(frs[idx[0]]);
    }
  }

  // ---------------------------------------------------------------------
  // The fallback parse
  // ---------------------------------------------------------------------

  /** `content[start:end + 1]` for the first '{' and the last '}', when both
      exist and the '}' comes after the '{'. */
  function BraceSpan(content: string): (span: Option<string>)
    ensures span.None? <==> ('{' !in content || '}' !in content || RFind(content, '}') < Find(content, '{'))
    ensures span.Some? ==>
              var i, j := Find(content, '{'), RFind(content, '}');
              && 0 <= i < j < |content|
              && span.value == content[i..j + 1]
              && '{' !in content[..i] && '}' !in content[j + 1..]
    ensures span.Some? ==> |span.value| >= 2 && span.value[0] == '{' && span.value[|span.value| - 1] == '}'
  {
    var start, end := Find(content, '{'), RFind(content, '}');
    if start != -1 && end != -1 && end > start then Some(content[start..end + 1]) else None
  }

  /** The `try`/`except json.JSONDecodeError` of `generate`: the whole reply
      if it parses; else the brace span, whose own parse error then
      propagates; else the first error is raised again. */
  function ParseReply<D>(content: string, parse: string -> Result<D, string>): (r: Result<D, string>)
    ensures parse(content).Ok? ==> r == parse(content)
    ensures parse(content).Err? && BraceSpan(content).None? ==> r == parse(content)
    ensures parse(content).Err? && BraceSpan(content).Some? ==> r == parse(BraceSpan(content).value)
  {
    match parse(content)
    case Ok(data) => Ok(data)
    case Err(e) =>
      match BraceSpan(content)
      case Some(span) => parse(span)
      case None => Err(e)
  }

  /** A JSON object `doc` wrapped in text with no brace of its own (a
      preface before, a remark after) is recovered: when the whole reply does
      not parse, `doc` alone is what gets parsed. */
  lemma ParseReplyRecoversWrapped<D>(before: string, doc: string, after: string,
                                     parse: string -> Result<D, string>)
    requires |doc| >= 2 && doc[0] == '{' && doc[|doc| - 1] == '}'
    requires '{' !in before && '}' !in after
    requires parse(before + doc + after).Err?
    ensures ParseReply(before + doc + after, parse) == parse(doc)
  {
    var content := before + doc + after;
    var i, j := |before|, |before| + |doc| - 1;
    assert content[i] == '{' && content[j] == '}';
    assert content[..i] == before;
    assert content[j + 1..] == after;
    assert content[i..j + 1] == doc;
  }

  // ---------------------------------------------------------------------
  // The generator
  // ---------------------------------------------------------------------

  /** What the chat call is given, besides the fixed system prompt, schema,
      instructions and sampling settings. */
  datatype ChatRequest = ChatRequest(model: string, domain: string, frs: seq<FrObj>)

  /** The chat call's reply content, or the exception it raised. */
  datatype Reply = Content(text: string) | Raised(error: string)

  /** Why `generate` fails: the `ValueError` for no FRs, an exception out of
      the chat call, or the JSON error left after the fallback. */
  datatype GenerateError = NoFunctionalRequirements | ClientRaised(error: string) | InvalidJson(error: string)

  /** The `RuntimeError` of the constructor. */
  datatype InitError = ApiKeyNotSet

  class Generator {
    var model: string
    var apiKey: string

    constructor (model: string, apiKey: string)
      requires apiKey != ""
      ensures this.model == ChosenModel(model) && this.model != ""
      ensures this.apiKey == apiKey
    {
      this.model := ChosenModel(model);
      this.apiKey := apiKey;
    }

    /** `NFRGenerator(model)` with `GROQ_API_KEY` as `apiKey`: a missing key
        raises before any client is built. */
    static method Create(model: string, apiKey: string) returns (r: Result<Generator, InitError>)
      ensures r.Err? <==> apiKey == ""
      ensures r.Ok? ==> fresh(r.value) && r.value.model == ChosenModel(model) && r.value.apiKey == apiKey
    {
      if apiKey == "" {
        return Err(ApiKeyNotSet);
      }
      var g := new Generator(model, apiKey);
      return Ok(g);
    }

    /** `generate(frs, domain)`: no non-blank FR raises before the chat call;
        otherwise the call sees the numbered FRs and the domain, and its reply
        goes through the fallback parse. */
    function Generate<D>(frs: seq<string>, domain: Option<string>,
                         chat: ChatRequest -> Reply, parse: string -> Result<D, string>)
      : (r: Result<D, GenerateError>)
      reads this
      ensures r == Err(NoFunctionalRequirements) <==> forall i :: 0 <= i < |frs| ==> IsBlank(frs[i])
      ensures r.Err? && r.error.ClientRaised? ==>
                chat(ChatRequest(model, ChosenDomain(domain), FrObjects(frs))) == Raised(r.error.error)
      ensures r.Ok? ==>
                var reply := chat(ChatRequest(model, ChosenDomain(domain), FrObjects(frs)));
                reply.Content? && ParseReply(reply.text, parse) == Ok(r.value)
      ensures r.Err? && r.error.InvalidJson? ==>
                var reply := chat(ChatRequest(model, ChosenDomain(domain), FrObjects(frs)));
                reply.Content? && ParseReply(reply.text, parse) == Err(r.error.error)
    {
      var objs := FrObjects(frs);
      FrObjectsWellFormed(frs);
      if objs == [] then Err(NoFunctionalRequirements)
      else
        match chat(ChatRequest(model, ChosenDomain(domain), objs))
        case Raised(e) => Err(ClientRaised(e))
        case Content(text) =>
          match ParseReply(text, parse)
          case Ok(data) => Ok(data)
          case Err(e) => Err(InvalidJson(e))
    }
  }
}
