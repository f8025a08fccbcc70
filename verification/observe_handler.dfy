/** The observation handler's pure part: the default instruction, the metrics bucket, the iframe
    placeholders of flat mode, and the map-then-filter from the elements the model returned to
    observation results. The accessibility-tree builders, the inference call,
    `trimTrailingTextNode` and `encodeWithFrameId` are inputs. */
module ObserveHandler {
  import opened Values

  /** The instruction used when the caller gives none. */
  const DefaultInstruction: string :=
    "Find elements that can be used for any future actions in the page. These may be navigation links, related pages, section/subsection links, buttons, or other interactive elements. Be comprehensive: if there are multiple elements that may be relevant for future actions, return all of them."

  /** The instruction sent to inference: the caller's unless it is missing or empty. */
  function EffectiveInstruction(instruction: Option<string>): (r: string)
    ensures instruction.None? || instruction == Some("") ==> r == DefaultInstruction
    ensures instruction.Some? && instruction.value != "" ==> r == instruction.value
  {
    if instruction.None? || instruction.value == "" then DefaultInstruction else instruction.value
  }

  /** An element as the model returned it. `methodName` is the source's `method` field,
      renamed because `method` is a Dafny keyword. */
  datatype ModelElement = ModelElement(elementId: string, description: string,
                                       methodName: Option<string>, arguments: Option<seq<string>>)

  /** An observation result: the element's other fields plus a selector. */
  datatype ObserveResult = ObserveResult(description: string, methodName: Option<string>,
                                         arguments: Option<seq<string>>, selector: string)

  /** The inference response; the counters are `None` when the response lacks them. */
  datatype Inference = Inference(elements: seq<ModelElement>, promptTokens: Option<int>,
                                 completionTokens: Option<int>, inferenceTimeMs: Option<int>)

  /** What the accessibility-tree builder produced: the id-to-xpath map and the iframe nodes it
      found. */
  datatype IframeNode = IframeNode(nodeId: string)
  datatype Snapshot = Snapshot(xpathMap: map<string, string>, iframes: seq<IframeNode>)

  /** The metrics bucket an observation is charged to. */
  datatype FunctionName = ActFunction | ObserveFunction

  datatype MetricsUpdate = MetricsUpdate(bucket: FunctionName, promptTokens: int,
                                         completionTokens: int, inferenceTimeMs: int)

  /** A missing counter counts as 0. */
  function CountOrZero(n: Option<int>): (r: int)
    ensures n.Some? ==> r == n.value
    ensures n.None? ==> r == 0
  {
    if n.Some? then n.value else 0
  }

  /** The metrics update for one observation. */
  function Metrics(fromAct: bool, response: Inference): (m: MetricsUpdate)
    ensures m.bucket == ActFunction <==> fromAct
    ensures m.promptTokens == CountOrZero(response.promptTokens)
    ensures m.completionTokens == CountOrZero(response.completionTokens)
    ensures m.inferenceTimeMs == CountOrZero(response.inferenceTimeMs)
  {
    MetricsUpdate(if fromAct then ActFunction else ObserveFunction,
                  CountOrZero(response.promptTokens), CountOrZero(response.completionTokens),
                  CountOrZero(response.inferenceTimeMs))
  }

  /** The iframes reported back: none when the frame-aware builder ran. */
  function DiscoveredIframes(iframes: bool, tree: Snapshot): (r: seq<IframeNode>)
    ensures iframes ==> r == []
    ensures !iframes ==> r == tree.iframes
  {
    if iframes then [] else tree.iframes
  }

  /** The placeholder element standing for one discovered iframe. */
  function Placeholder(node: IframeNode, encode: string -> string): ModelElement {
    ModelElement(encode(node.nodeId), "an iframe", Some("not-supported"), Some([]))
  }

  /** One placeholder per discovered iframe, in order. */
  function Placeholders(nodes: seq<IframeNode>, encode: string -> string): (r: seq<ModelElement>)
    ensures |r| == |nodes|
    ensures forall i :: 0 <= i < |nodes| ==> r[i] == Placeholder(nodes[i], encode)
  {
    if nodes == [] then [] else [Placeholder(nodes[0], encode)] + Placeholders(nodes[1..], encode)
  }

  /** An id naming a node of a frame (`frame-backend`) contains a dash. */
  predicate IsEncodedId(elementId: string) {
    '-' in elementId
  }

  /** What an element id without a dash becomes. */
  const ShadowDomStub: ObserveResult :=
    ObserveResult("an element inside a shadow DOM", Some("not-supported"), Some([]), "not-supported")

  /** The mapping of one element, which may drop it. */
  datatype Resolution = Dropped | Resolved(result: ObserveResult)

  /** One element's selector: the trimmed xpath of an encoded id, dropped when that is missing
      or empty, and the shadow-DOM stub for any other id. */
  function ResolveElement(e: ModelElement, xpathMap: map<string, string>,
                          trim: Option<string> -> Option<string>): (r: Resolution)
    ensures !IsEncodedId(e.elementId) ==> r == Resolved(ShadowDomStub)
    ensures IsEncodedId(e.elementId) ==>
      var trimmed := trim(if e.elementId in xpathMap then Some(xpathMap[e.elementId]) else None);
      (r.Dropped? <==> trimmed.None? || trimmed.value == "") &&
      (r.Resolved? ==> r.result == ObserveResult(e.description, e.methodName, e.arguments, "xpath=" + trimmed.value))
  {
    if IsEncodedId(e.elementId) then
      var xpath := if e.elementId in xpathMap then Some(xpathMap[e.elementId]) else None;
      var trimmed := trim(xpath);
      if trimmed.None? || trimmed.value == "" then Dropped
      else Resolved(ObserveResult(e.description, e.methodName, e.arguments, "xpath=" + trimmed.value))
    else
      Resolved(ShadowDomStub)
  }

  /** `elements.map(...)`: every element resolved, in order. */
  function ResolveEach(es: seq<ModelElement>, xpathMap: map<string, string>,
                       trim: Option<string> -> Option<string>): (rs: seq<Resolution>)
    ensures |rs| == |es|
    ensures forall i :: 0 <= i < |es| ==> rs[i] == ResolveElement(es[i], xpathMap, trim)
  {
    if es == [] then [] else [ResolveElement(es[0], xpathMap, trim)] + ResolveEach(es[1..], xpathMap, trim)
  }

  /** `.filter(e => e !== undefined)`: the results of the resolved elements, in order. */
  function Survivors(rs: seq<Resolution>): seq<ObserveResult> {
    if rs == [] then []
    else if rs[0].Dropped? then Survivors(rs[1..])
    else [rs[0].result] + Survivors(rs[1..])
  }

  /** The map-then-filter from model elements to observation results. */
  function ResolveAll(es: seq<ModelElement>, xpathMap: map<string, string>,
                      trim: Option<string> -> Option<string>): seq<ObserveResult>
  {
    Survivors(ResolveEach(es, xpathMap, trim))
  }

  /** Every position moved one place on. */
  function Shift(s: seq<nat>): (r: seq<nat>)
    ensures |r| == |s|
    ensures forall k :: 0 <= k < |s| ==> r[k] == s[k] + 1
  {
    if s == [] then [] else [s[0] + 1] + Shift(s[1..])
  }

  /** The positions of the resolutions that survive the filter, in increasing order. */
  function KeptIndices(rs: seq<Resolution>): seq<nat> {
    if rs == [] then []
    else
      var rest := Shift(KeptIndices(rs[1..]));
      if rs[0].Dropped? then rest else [0] + rest
  }

  /** The surviving positions are in range and strictly increasing, one per output. */
  lemma {:induction false} KeptIndicesIncrease(rs: seq<Resolution>)
    ensures var idx := KeptIndices(rs);
      |idx| == |Survivors(rs)| &&
      (forall k :: 0 <= k < |idx| ==> idx[k] < |rs|) &&
      (forall k, l :: 0 <= k < l < |idx| ==> idx[k] < idx[l])
    decreases |rs|
  {
    if rs != [] {
      KeptIndicesIncrease(rs[1..]);
    }
  }

  /** The k-th output is the result at the k-th surviving position. */
  lemma {:induction false} KeptIndicesResolve(rs: seq<Resolution>)
    ensures var idx := KeptIndices(rs);
      var out := Survivors(rs);
      forall k :: 0 <= k < |idx| ==> idx[k] < |rs| && k < |out| && rs[idx[k]] == Resolved(out[k])
    decreases |rs|
  {
    if rs != [] {
      KeptIndicesIncrease(rs[1..]);
      KeptIndicesResolve(rs[1..]);
      var tail := KeptIndices(rs[1..]);
      var out' := Survivors(rs[1..]);
      var idx := KeptIndices(rs);
      var out := Survivors(rs);
      forall k | 0 <= k < |tail|
        ensures rs[tail[k] + 1] == rs[1..][tail[k]]
      {
      }
      if rs[0].Dropped? {
        assert idx == Shift(tail) && out == out';
      } else {
        assert idx == [0] + Shift(tail) && out == [rs[0].result] + out';
      }
    }
  }

  /** Every position that is not listed as surviving holds a dropped element. */
  lemma {:induction false} KeptIndicesComplete(rs: seq<Resolution>)
    ensures forall i :: 0 <= i < |rs| && i !in KeptIndices(rs) ==> rs[i].Dropped?
    decreases |rs|
  {
    if rs != [] {
      KeptIndicesComplete(rs[1..]);
      forall i | 1 <= i < |rs| && i !in KeptIndices(rs)
        ensures rs[i].Dropped?
      {
        assert rs[1..][i - 1] == rs[i];
      }
    }
  }

  /** Filtering never lengthens the list. */
  lemma {:induction false} SurvivorsNoLonger(rs: seq<Resolution>)
    ensures |Survivors(rs)| <= |rs|
    decreases |rs|
  {
    if rs != [] {
      SurvivorsNoLonger(rs[1..]);
    }
  }

  /** The output is an order-preserving subsequence of the per-element results: the k-th output
      comes from the k-th surviving element, survivors are listed in increasing position, and
      every element not listed was dropped. */
  lemma ResolveAllIsOrderedSubsequence(es: seq<ModelElement>, xpathMap: map<string, string>,
                                       trim: Option<string> -> Option<string>)
    ensures var out := ResolveAll(es, xpathMap, trim);
      var idx := KeptIndices(ResolveEach(es, xpathMap, trim));
      |idx| == |out| <= |es| &&
      (forall k :: 0 <= k < |idx| ==> idx[k] < |es| && ResolveElement(es[idx[k]], xpathMap, trim) == Resolved(out[k])) &&
      (forall k, l :: 0 <= k < l < |idx| ==> idx[k] < idx[l]) &&
      (forall i :: 0 <= i < |es| && i !in idx ==> ResolveElement(es[i], xpathMap, trim).Dropped?)
  {
    var rs := ResolveEach(es, xpathMap, trim);
    KeptIndicesIncrease(rs);
    KeptIndicesResolve(rs);
    KeptIndicesComplete(rs);
    SurvivorsNoLonger(rs);
  }

  /** Filtering a concatenation filters each part. */
  lemma {:induction false} SurvivorsAppend(a: seq<Resolution>, b: seq<Resolution>)
    ensures Survivors(a + b) == Survivors(a) + Survivors(b)
    decreases |a|
  {
    if a == [] {
      assert a + b == b;
    } else {
      assert (a + b)[0] == a[0];
      assert (a + b)[1..] == a[1..] + b;
      SurvivorsAppend(a[1..], b);
    }
  }

  /** Splitting the element list splits the output the same way. */
  lemma ResolveAllAppend(a: seq<ModelElement>, b: seq<ModelElement>, xpathMap: map<string, string>,
                         trim: Option<string> -> Option<string>)
    ensures ResolveAll(a + b, xpathMap, trim) == ResolveAll(a, xpathMap, trim) + ResolveAll(b, xpathMap, trim)
  {
    var ra, rb := ResolveEach(a, xpathMap, trim), ResolveEach(b, xpathMap, trim);
    assert ResolveEach(a + b, xpathMap, trim) == ra + rb;
    SurvivorsAppend(ra, rb);
  }

  /** A selector is either the unsupported marker or `xpath=` followed by non-empty text. */
  predicate WellFormedSelector(selector: string) {
    selector == "not-supported" || (|selector| > 6 && selector[..6] == "xpath=")
  }

  /** Whatever survives the filter was a resolved element. */
  lemma {:induction false} SurvivorsAreResolved(rs: seq<Resolution>)
    ensures forall r :: r in Survivors(rs) ==> Resolved(r) in rs
    decreases |rs|
  {
    if rs != [] {
      SurvivorsAreResolved(rs[1..]);
    }
  }

  /** One resolved element has a well-formed selector. */
  lemma ResolvedSelectorWellFormed(e: ModelElement, xpathMap: map<string, string>,
                                   trim: Option<string> -> Option<string>)
    requires ResolveElement(e, xpathMap, trim).Resolved?
    ensures WellFormedSelector(ResolveElement(e, xpathMap, trim).result.selector)
  {
    if IsEncodedId(e.elementId) {
      var trimmed := trim(if e.elementId in xpathMap then Some(xpathMap[e.elementId]) else None);
      assert ("xpath=" + trimmed.value)[..6] == "xpath=";
    }
  }

  /** Every output selector is well formed. */
  lemma SelectorsWellFormed(es: seq<ModelElement>, xpathMap: map<string, string>,
                            trim: Option<string> -> Option<string>)
    ensures forall r :: r in ResolveAll(es, xpathMap, trim) ==> WellFormedSelector(r.selector)
  {
    var rs := ResolveEach(es, xpathMap, trim);
    SurvivorsAreResolved(rs);
    forall r | r in ResolveAll(es, xpathMap, trim)
      ensures WellFormedSelector(r.selector)
    {
      var i :| 0 <= i < |rs| && rs[i] == Resolved(r);
      ResolvedSelectorWellFormed(es[i], xpathMap, trim);
    }
  }

  /** What one observation did: the instruction it sent, the metrics it recorded, and the
      results it returned. */
  datatype Observation = Observation(instruction: string, metrics: MetricsUpdate, results: seq<ObserveResult>)

  /** `observe`: `tree` is what the chosen builder returned (frame-aware when `iframes`), and
      `response` what inference returned for the instruction. */
  function Observe(instruction: Option<string>, fromAct: bool, iframes: bool, tree: Snapshot,
                   response: Inference, encode: string -> string,
                   trim: Option<string> -> Option<string>): (o: Observation)
    ensures o.instruction == EffectiveInstruction(instruction)
    ensures o.metrics == Metrics(fromAct, response)
    ensures |o.results| <= |response.elements| + |DiscoveredIframes(iframes, tree)|
  {
    var elements := response.elements + Placeholders(DiscoveredIframes(iframes, tree), encode);
    SurvivorsNoLonger(ResolveEach(elements, tree.xpathMap, trim));
    Observation(EffectiveInstruction(instruction), Metrics(fromAct, response),
                ResolveAll(elements, tree.xpathMap, trim))
  }

  /** The model's elements are resolved first; flat mode then resolves one placeholder per
      discovered iframe, in order, after them. */
  lemma {:induction false} PlaceholdersFollowModelElements(instruction: Option<string>, fromAct: bool, iframes: bool,
                                                           tree: Snapshot, response: Inference, encode: string -> string,
                                                           trim: Option<string> -> Option<string>)
    ensures var o := Observe(instruction, fromAct, iframes, tree, response, encode, trim);
      o.results == ResolveAll(response.elements, tree.xpathMap, trim) +
                   ResolveAll(Placeholders(DiscoveredIframes(iframes, tree), encode), tree.xpathMap, trim)
    ensures iframes ==> Observe(instruction, fromAct, iframes, tree, response, encode, trim).results ==
                        ResolveAll(response.elements, tree.xpathMap, trim)
  {
    ResolveAllAppend(response.elements, Placeholders(DiscoveredIframes(iframes, tree), encode), tree.xpathMap, trim);
    assert Placeholders([], encode) == [];
  }

  /** No elements and no iframes: an empty result. */
  lemma NothingObservedIsEmpty(instruction: Option<string>, fromAct: bool, iframes: bool, xpathMap: map<string, string>,
                               response: Inference, encode: string -> string, trim: Option<string> -> Option<string>)
    requires response.elements == []
    ensures Observe(instruction, fromAct, iframes, Snapshot(xpathMap, []), response, encode, trim).results == []
  {
  }
}
