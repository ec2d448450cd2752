/** The classifier adapter: the ordered rules that map a model label to a
    waste category, the choice of one candidate among the model's top five,
    and the memoised model handle with its backend fallback and single
    retry. The model itself is outside: each call into it is a parameter
    saying whether it succeeded and what it answered. */
module WasteClassifier {
  import opened Wrappers
  import opened Text
  import opened Patterns
  import opened Pricing

  // ---------------------------------------------------------------------
  // Label -> category
  // ---------------------------------------------------------------------

  /** One `if (/(...)/.test(l) && !/(...)/.test(l)) return category;` of the
      mapping: it fires when one of `terms` is found and none of `unless`. */
  datatype Rule = Rule(category: WasteCategory, terms: seq<Pattern>, unless: seq<Pattern>)

  predicate Fires(rule: Rule, l: string)
  {
    FoundAny(rule.terms, l) && !FoundAny(rule.unless, l)
  }

  /** newspaper|paper(?!\s*cup)|cardboard|carton|corrugated|magazine|notebook|book|page|sheet|paper\s*bag|carton\s*box|cardboard\s*box */
  const PaperTerms: seq<Pattern> := [
    Lit("newspaper"), Then(Lit("paper"), NotFollowedBy(Then(Spaces, Lit("cup")))), Lit("cardboard"),
    Lit("carton"), Lit("corrugated"), Lit("magazine"), Lit("notebook"), Lit("book"), Lit("page"),
    Lit("sheet"), Words("paper", "bag"), Words("carton", "box"), Words("cardboard", "box")]

  /** glass\s*bottle|bottle\s*of\s*glass|glass.*(bottle|jar)|jar|goblet|wineglass|beer\s*bottle|wine\s*bottle|champagne\s*bottle|milk\s*bottle */
  const GlassTerms: seq<Pattern> := [
    Words("glass", "bottle"), Words3("bottle", "of", "glass"),
    Then(Lit("glass"), Then(AnyRun, Either(Lit("bottle"), Lit("jar")))), Lit("jar"), Lit("goblet"),
    Lit("wineglass"), Words("beer", "bottle"), Words("wine", "bottle"), Words("champagne", "bottle"),
    Words("milk", "bottle")]

  /** steel|metal|aluminium|aluminum|tin(\s*can)?|soda\s*can|soft\s*drink\s*can|iron|scrap|bolt|screw */
  const MetalTerms: seq<Pattern> := [
    Lit("steel"), Lit("metal"), Lit("aluminium"), Lit("aluminum"),
    Then(Lit("tin"), Optional(Then(Spaces, Lit("can")))), Words("soda", "can"),
    Words3("soft", "drink", "can"), Lit("iron"), Lit("scrap"), Lit("bolt"), Lit("screw")]

  /** plastic|polyethylene|pet\b|polypropylene|water\s*bottle|soda\s*bottle|plastic\s*bottle|pet\s*bottle|disposable\s*cup */
  const PlasticTerms: seq<Pattern> := [
    Lit("plastic"), Lit("polyethylene"), Then(Lit("pet"), WordBoundary), Lit("polypropylene"),
    Words("water", "bottle"), Words("soda", "bottle"), Words("plastic", "bottle"), Words("pet", "bottle"),
    Words("disposable", "cup")]

  /** The rules in the order they are tried: paper, glass, metal, then
      plastic provided the label does not mention glass. */
  const Rules: seq<Rule> := [
    Rule(Paper, PaperTerms, []),
    Rule(Glass, GlassTerms, []),
    Rule(Metal, MetalTerms, []),
    Rule(Plastic, PlasticTerms, [Lit("glass")])]

  /** The category of the first rule that fires, Mixed when none does. */
  function FirstFiring(rules: seq<Rule>, l: string): (c: WasteCategory)
    ensures (exists k | 0 <= k < |rules| ::
               Fires(rules[k], l) && c == rules[k].category &&
               forall j | 0 <= j < k :: !Fires(rules[j], l))
         || (c == Mixed && forall k | 0 <= k < |rules| :: !Fires(rules[k], l))
  {
    if rules == [] then Mixed
    else if Fires(rules[0], l) then rules[0].category
    else
      var c := FirstFiring(rules[1..], l);
      assert forall k | 1 <= k < |rules| :: rules[k] == rules[1..][k - 1];
      c
  }

  /** mapLabelToCategory: the rules, tried on the lower-cased label. */
  function MapLabelToCategory(text: string): WasteCategory
  {
    FirstFiring(Rules, Lower(text))
  }

  /** The mapping is total and its rules take precedence in order: each
      category is produced exactly when its rule fires and no earlier one
      does, and Mixed exactly when no rule fires. */
  lemma MappingPrecedence(text: string)
    ensures var l := Lower(text);
      && (MapLabelToCategory(text) == Paper <==> FoundAny(PaperTerms, l))
      && (MapLabelToCategory(text) == Glass <==> !FoundAny(PaperTerms, l) && FoundAny(GlassTerms, l))
      && (MapLabelToCategory(text) == Metal <==>
            !FoundAny(PaperTerms, l) && !FoundAny(GlassTerms, l) && FoundAny(MetalTerms, l))
      && (MapLabelToCategory(text) == Plastic <==>
            !FoundAny(PaperTerms, l) && !FoundAny(GlassTerms, l) && !FoundAny(MetalTerms, l) &&
            FoundAny(PlasticTerms, l) && !Contains(l, "glass"))
      && (MapLabelToCategory(text) == Mixed <==>
            !FoundAny(PaperTerms, l) && !FoundAny(GlassTerms, l) && !FoundAny(MetalTerms, l) &&
            !(FoundAny(PlasticTerms, l) && !Contains(l, "glass")))
  {
    var l := Lower(text);
    LitFound("glass", l);
    assert [Lit("glass")][0] == Lit("glass");
    assert FoundAny([Lit("glass")], l) <==> Found(Lit("glass"), l);
    assert Fires(Rules[0], l) <==> FoundAny(PaperTerms, l);
    assert Fires(Rules[1], l) <==> FoundAny(GlassTerms, l);
    assert Fires(Rules[2], l) <==> FoundAny(MetalTerms, l);
    assert Fires(Rules[3], l) <==> FoundAny(PlasticTerms, l) && !Contains(l, "glass");
  }

  /** The mapping ignores letter case. */
  lemma MappingIgnoresCase(text: string)
    ensures MapLabelToCategory(Lower(text)) == MapLabelToCategory(text)
  {
    LowerIdempotent(text);
  }

  /** The plain words of the paper rule. */
  const PaperWords: seq<string> :=
    ["newspaper", "cardboard", "carton", "corrugated", "magazine", "notebook", "book", "page", "sheet"]

  /** A label with a plain paper word in it maps to paper, whatever else it
      mentions: paper is tried first. */
  lemma PaperWordWins(text: string, w: string)
    requires w in PaperWords && Contains(Lower(text), w)
    ensures MapLabelToCategory(text) == Paper
  {
    var l := Lower(text);
    LitFound(w, l);
    var k :| 0 <= k < |PaperWords| && PaperWords[k] == w;
    var index := [0, 2, 3, 4, 5, 6, 7, 8, 9][k];
    assert PaperTerms[index] == Lit(w);
    MappingPrecedence(text);
  }

  /** In particular a label mentioning "newspaper" or "cardboard", in any
      letter case, maps to paper. */
  lemma NewspaperOrCardboardIsPaper(text: string)
    requires Contains(Lower(text), "newspaper") || Contains(Lower(text), "cardboard")
    ensures MapLabelToCategory(text) == Paper
  {
    var w := if Contains(Lower(text), "newspaper") then "newspaper" else "cardboard";
    PaperWordWins(text, w);
  }

  /** A label that mentions glass never maps to plastic. */
  lemma GlassIsNeverPlastic(text: string)
    requires Contains(Lower(text), "glass")
    ensures MapLabelToCategory(text) != Plastic
  {
    MappingPrecedence(text);
  }

  // ---------------------------------------------------------------------
  // Choosing among the candidates
  // ---------------------------------------------------------------------

  /** One candidate of the model's answer. A label or score that is missing,
      or (for the score) not a number, is None. */
  datatype Prediction = Prediction(modelLabel: Option<string>, score: Option<real>)

  /** The model answers with an array of candidates or, unexpectedly, with a
      single value. */
  datatype Outputs = Many(predictions: seq<Prediction>) | One(prediction: Prediction)

  datatype ClassificationResult = ClassificationResult(modelLabel: string, score: real, category: WasteCategory)

  /** What the caller gets when nothing better is available. */
  const Sentinel := ClassificationResult("unknown", 0.0, Mixed)

  /** `Array.isArray(outputs) ? outputs : [outputs]`. */
  function Candidates(outputs: Outputs): seq<Prediction>
  {
    match outputs
    case Many(ps) => ps
    case One(p) => [p]
  }

  /** `String(p?.label || "")`: the text the rules are tried on. */
  function LabelText(p: Prediction): string
  {
    p.modelLabel.GetOr("")
  }

  function CategoryOf(p: Prediction): WasteCategory
  {
    MapLabelToCategory(LabelText(p))
  }

  /** `{ ...p, category }`: a candidate with the category of its label. */
  datatype Mapped = Mapped(prediction: Prediction, category: WasteCategory)

  /** `arr.map(...)`. */
  function MapCandidates(ps: seq<Prediction>): seq<Mapped>
  {
    seq(|ps|, k requires 0 <= k < |ps| => Mapped(ps[k], CategoryOf(ps[k])))
  }

  /** The fields returned for a picked candidate: its label, or "unknown"
      when it has none; its score when it is a number, or 0; its category. */
  function Summary(m: Mapped): ClassificationResult
  {
    ClassificationResult(m.prediction.modelLabel.GetOr("unknown"), m.prediction.score.GetOr(0.0), m.category)
  }

  /** `mapped.find(p => p.category !== "mixed")`, as the index found. */
  function FindSpecific(ms: seq<Mapped>, from: nat): (r: Option<nat>)
    requires from <= |ms|
    ensures r.Some? ==> from <= r.value < |ms| && ms[r.value].category != Mixed &&
                        forall j | from <= j < r.value :: ms[j].category == Mixed
    ensures r.None? ==> forall j | from <= j < |ms| :: ms[j].category == Mixed
    decreases |ms| - from
  {
    if from == |ms| then None
    else if ms[from].category != Mixed then Some(from)
    else FindSpecific(ms, from + 1)
  }

  /** `mapped.find(...) ?? mapped[0] ?? sentinel`, then the returned fields:
      the first candidate whose category is not Mixed; failing that the
      first candidate; failing that the sentinel. */
  function Pick(ms: seq<Mapped>): (r: ClassificationResult)
    ensures r.category != Mixed <==> exists k | 0 <= k < |ms| :: ms[k].category != Mixed
    ensures forall k | 0 <= k < |ms| ::
              ms[k].category != Mixed && (forall j | 0 <= j < k :: ms[j].category == Mixed) ==> r == Summary(ms[k])
    ensures (forall k | 0 <= k < |ms| :: ms[k].category == Mixed) && |ms| > 0 ==>
              r == ClassificationResult(ms[0].prediction.modelLabel.GetOr("unknown"),
                                        ms[0].prediction.score.GetOr(0.0), Mixed)
    ensures ms == [] ==> r == Sentinel
  {
    match FindSpecific(ms, 0)
    case Some(k) => Summary(ms[k])
    case None => if ms == [] then Sentinel else Summary(ms[0])
  }

  /** The selection at the end of classifyImageFromDataURL. */
  function SelectResult(outputs: Outputs): ClassificationResult
  {
    Pick(MapCandidates(Candidates(outputs)))
  }

  /** A single value is treated as a list holding just that value. */
  lemma SingleOutputIsListOfOne(p: Prediction)
    ensures SelectResult(One(p)) == SelectResult(Many([p]))
  {
  }

  // ---------------------------------------------------------------------
  // The memoised model handle, its backend fallback and the retry
  // ---------------------------------------------------------------------

  /** The compute backend a pipeline is created for; DefaultBackend is the
      library's own choice when none is asked for. */
  datatype Device = WebGpu | Wasm | DefaultBackend

  /** A loaded image-classification pipeline. */
  datatype Handle = Handle(device: Device)

  /** A call into the model library: creating a pipeline on a device, or
      running inference with one. */
  datatype Call = Load(device: Device) | Infer(device: Device)

  /** The backends ensureClassifier asks for, in order. */
  const FallbackChain: seq<Device> := [WebGpu, Wasm, DefaultBackend]

  /** Whether creating the pipeline on each backend succeeds, during one
      initialisation. */
  datatype LoadOutcomes = LoadOutcomes(webGpu: bool, wasm: bool, defaultBackend: bool) {
    predicate Loads(d: Device)
    {
      match d
      case WebGpu => webGpu
      case Wasm => wasm
      case DefaultBackend => defaultBackend
    }
  }

  /** The first backend of `chain` that loads. */
  function FirstLoading(chain: seq<Device>, loads: LoadOutcomes): (r: Option<Device>)
    ensures r.Some? ==> r.value in chain && loads.Loads(r.value)
    ensures r.None? <==> forall k | 0 <= k < |chain| :: !loads.Loads(chain[k])
  {
    if chain == [] then None
    else if loads.Loads(chain[0]) then Some(chain[0])
    else FirstLoading(chain[1..], loads)
  }

  /** The pipelines created while walking `chain`: every backend up to and
      including the first that loads. */
  function LoadAttempts(chain: seq<Device>, loads: LoadOutcomes): (calls: seq<Call>)
    ensures |calls| <= |chain|
    ensures forall k | 0 <= k < |calls| :: calls[k] == Load(chain[k])
    ensures FirstLoading(chain, loads).None? ==> |calls| == |chain|
    ensures FirstLoading(chain, loads).Some? ==> |calls| > 0 && calls[|calls| - 1] == Load(FirstLoading(chain, loads).value)
  {
    if chain == [] then []
    else if loads.Loads(chain[0]) then [Load(chain[0])]
    else [Load(chain[0])] + LoadAttempts(chain[1..], loads)
  }

  /** WebGPU is tried first, then wasm, then the default backend. */
  lemma FallbackOrder(loads: LoadOutcomes)
    ensures FirstLoading(FallbackChain, loads) ==
      if loads.webGpu then Some(WebGpu)
      else if loads.wasm then Some(Wasm)
      else if loads.defaultBackend then Some(DefaultBackend)
      else None
    ensures LoadAttempts(FallbackChain, loads) ==
      if loads.webGpu then [Load(WebGpu)]
      else if loads.wasm then [Load(WebGpu), Load(Wasm)]
      else [Load(WebGpu), Load(Wasm), Load(DefaultBackend)]
  {
    var last: seq<Device> := [DefaultBackend];
    assert last[1..] == [];
    assert FirstLoading(last, loads) == if loads.defaultBackend then Some(DefaultBackend) else None;
    var tail: seq<Device> := [Wasm, DefaultBackend];
    assert tail[1..] == last;
    assert FallbackChain[1..] == tail;
  }

  /** How the model's answer to one inference call turns out. */
  datatype Inference = Answers(outputs: Outputs) | Throws

  /** How the promise of classifyImageFromDataURL settles. */
  datatype Settled = Fulfilled(result: ClassificationResult) | Rejected

  /** The module-level `let classifier` together with the two functions that
      use it. */
  class ClassifierService {
    var classifier: Option<Handle>

    constructor ()
      ensures classifier == None
    {
      classifier := None;
    }

    /** ensureClassifier: the cached handle if there is one; otherwise the
        first backend of the fallback chain that loads, which is then
        cached. When no backend loads nothing is cached and the error
        propagates (None). */
    method EnsureClassifier(loads: LoadOutcomes) returns (h: Option<Handle>, calls: seq<Call>)
      modifies this
      ensures old(classifier).Some? ==> h == old(classifier) && calls == [] && classifier == old(classifier)
      ensures old(classifier).None? ==>
        && h == (match FirstLoading(FallbackChain, loads)
                 case Some(d) => Some(Handle(d))
                 case None => None)
        && calls == LoadAttempts(FallbackChain, loads)
        && classifier == h
    {
      if classifier.Some? {
        return classifier, [];
      }
      FallbackOrder(loads);
      calls := [Load(WebGpu)];
      if loads.webGpu {
        classifier := Some(Handle(WebGpu));
      } else {
        calls := calls + [Load(Wasm)];
        if loads.wasm {
          classifier := Some(Handle(Wasm));
        } else {
          calls := calls + [Load(DefaultBackend)];
          if loads.defaultBackend {
            classifier := Some(Handle(DefaultBackend));
          }
        }
      }
      h := classifier;
    }

    /** classifyImageFromDataURL. `loads` says how pipeline creation goes in
        ensureClassifier, `first` how the first inference goes, `reload`
        whether re-creating the pipeline on wasm succeeds and `retry` how the
        inference on that new pipeline goes. */
    method ClassifyImage(loads: LoadOutcomes, first: Inference, reload: bool, retry: Inference)
      returns (r: Settled, calls: seq<Call>)
      modifies this
      // No backend could be loaded: the promise rejects and nothing is run.
      ensures old(classifier).None? && FirstLoading(FallbackChain, loads).None? ==>
                r == Rejected && calls == LoadAttempts(FallbackChain, loads) && classifier == None
      // Otherwise it always fulfils, with the handle h it started from.
      ensures old(classifier).Some? || FirstLoading(FallbackChain, loads).Some? ==>
        var h := if old(classifier).Some? then old(classifier).value
                 else Handle(FirstLoading(FallbackChain, loads).value);
        var setup := if old(classifier).Some? then [] else LoadAttempts(FallbackChain, loads);
        && (first.Answers? ==>
              r == Fulfilled(SelectResult(first.outputs)) &&
              calls == setup + [Infer(h.device)] && classifier == Some(h))
        && (first.Throws? && !reload ==>
              r == Fulfilled(Sentinel) &&
              calls == setup + [Infer(h.device), Load(Wasm)] && classifier == Some(h))
        && (first.Throws? && reload ==>
              r == Fulfilled(if retry.Answers? then SelectResult(retry.outputs) else Sentinel) &&
              calls == setup + [Infer(h.device), Load(Wasm), Infer(Wasm)] &&
              classifier == Some(Handle(Wasm)))
    {
      var h;
      h, calls := EnsureClassifier(loads);
      if h.None? {
        return Rejected, calls;
      }
      calls := calls + [Infer(h.value.device)];
      match first
      case Answers(outputs) =>
        r := Fulfilled(SelectResult(outputs));
      case Throws =>
        calls := calls + [Load(Wasm)];
        if !reload {
          r := Fulfilled(Sentinel);
        } else {
          classifier := Some(Handle(Wasm));
          calls := calls + [Infer(Wasm)];
          match retry
          case Answers(outputs) =>
            r := Fulfilled(SelectResult(outputs));
          case Throws =>
            r := Fulfilled(Sentinel);
        }
    }
  }
}
