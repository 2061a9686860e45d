/**
 * `Llm`: the LLM test-generation tool's request preparation — the walk up the
 * superclass chain that picks the classes to show the model, the loop that lowers the
 * polymorphism and input-parameter depths until the prompt fits, the reduction warning,
 * and the token check that guards every entry point.
 */
module Llm {
  import opened Wrappers
  import opened Text
  import opened Notifications
  import opened Workspace

  /** `CodeType` with what `FragmentToTestDada` carries for it. */
  datatype CodeType = ClassFragment | MethodFragment(objectDescription: string) | LineFragment(objectIndex: int)

  /** A `PsiClass`, compared by identity. */
  type ClassId = nat

  /** What the PSI says about classes: the superclass and the qualified name, either of which may be null. */
  datatype Hierarchy = Hierarchy(superClass: ClassId -> Option<ClassId>, qualifiedName: ClassId -> Option<string>)

  /** `LLMProcessManager(project, prompt)`: what the pipeline is started with. */
  datatype LLMProcessManager = LLMProcessManager(prompt: string)

  /** A class the walk may move up to: it has a qualified name outside the `java.` packages. */
  predicate NamedOutsideJava(h: Hierarchy, c: ClassId) {
    h.qualifiedName(c).Some? && !StartsWith(h.qualifiedName(c).value, "java.")
  }

  /** The superclass the walk moves up to from `c`, or nothing where the walk stops. */
  function NextClass(h: Hierarchy, c: ClassId): Option<ClassId> {
    match h.superClass(c)
    case None => None
    case Some(s) => if NamedOutsideJava(h, s) then Some(s) else None
  }

  /** The walk moves up exactly to a superclass named outside `java.`. */
  lemma NextClassExact(h: Hierarchy, c: ClassId)
    ensures NextClass(h, c).Some? <==> h.superClass(c).Some? && NamedOutsideJava(h, h.superClass(c).value)
    ensures NextClass(h, c).Some? ==> NextClass(h, c) == h.superClass(c)
  {
  }

  predicate NoDuplicates(classes: seq<ClassId>) {
    forall j, k :: 0 <= j < k < |classes| ==> classes[j] != classes[k]
  }

  /** Each class after the first is the one the walk moved up to from the class before it. */
  predicate Chained(h: Hierarchy, classes: seq<ClassId>) {
    forall j :: 0 < j < |classes| ==> NextClass(h, classes[j - 1]) == Some(classes[j])
  }

  /**
   * What holds at the top of each round of the walk: the list starts with the class
   * under test, is duplicate-free and chained, and the current class is where the list's
   * last class leads, or the walk is going round a cycle inside the list.
   */
  predicate WalkState(h: Hierarchy, cut: ClassId, current: ClassId, classes: seq<ClassId>, index: int) {
    && 0 <= index
    && |classes| <= index
    && (index == 0 <==> classes == [])
    && (classes == [] ==> current == cut)
    && NoDuplicates(classes)
    && Chained(h, classes)
    && (classes != [] ==>
         var next := NextClass(h, classes[|classes| - 1]);
         && classes[0] == cut
         && next.Some?
         && (current == next.value || (current in classes && next.value in classes))
         && (|classes| == index || next.value in classes))
  }

  /** The walk from round `index` on, as a function of its state: one round adds the current class unless listed, then moves up or stops. */
  function Walk(h: Hierarchy, current: ClassId, classes: seq<ClassId>, index: int, maxPolymorphismDepth: int): seq<ClassId>
    decreases maxPolymorphismDepth - index
  {
    if index >= maxPolymorphismDepth then classes
    else
      var added := if current in classes then classes else classes + [current];
      match NextClass(h, current)
      case None => added
      case Some(next) => Walk(h, next, added, index + 1, maxPolymorphismDepth)
  }

  /**
   * What the walk returns from a state with list `classes` at round `index`: it extends
   * `classes`, is duplicate-free and chained, stays within the depth bound starting with
   * the class under test, and ends only at the bound, at a class with nowhere to go, or
   * where the chain runs back into the list.
   */
  predicate WalkResult(h: Hierarchy, cut: ClassId, r: seq<ClassId>, classes: seq<ClassId>, index: int, maxPolymorphismDepth: int) {
    && |r| >= |classes| && r[..|classes|] == classes
    && NoDuplicates(r) && Chained(h, r)
    && (index < maxPolymorphismDepth ==> 1 <= |r| <= maxPolymorphismDepth && r[0] == cut)
    && (index >= maxPolymorphismDepth ==> r == classes)
    && (|r| >= 1 ==>
          var next := NextClass(h, r[|r| - 1]);
          |r| == maxPolymorphismDepth || next.None? || next.value in r)
  }

  /** From any state the walk can reach, the walk's result is as `WalkResult` describes. */
  lemma {:induction false} WalkProperties(h: Hierarchy, cut: ClassId, current: ClassId, classes: seq<ClassId>, index: int,
                                          maxPolymorphismDepth: int)
    requires WalkState(h, cut, current, classes, index)
    requires index <= maxPolymorphismDepth || index == 0
    ensures WalkResult(h, cut, Walk(h, current, classes, index, maxPolymorphismDepth), classes, index, maxPolymorphismDepth)
    decreases maxPolymorphismDepth - index
  {
    if index < maxPolymorphismDepth {
      var added := if current in classes then classes else classes + [current];
      match NextClass(h, current)
      case None =>
        WalkStops(h, cut, current, classes, index);
      case Some(next) =>
        WalkAdvances(h, cut, current, classes, index);
        WalkProperties(h, cut, next, added, index + 1, maxPolymorphismDepth);
        WalkResultStep(h, cut, Walk(h, next, added, index + 1, maxPolymorphismDepth), classes, added, index, maxPolymorphismDepth);
    }
  }

  /** A result for the state one round on is a result for the round before, whose list it extends. */
  lemma WalkResultStep(h: Hierarchy, cut: ClassId, r: seq<ClassId>, classes: seq<ClassId>, added: seq<ClassId>, index: int,
                       maxPolymorphismDepth: int)
    requires index < maxPolymorphismDepth
    requires WalkResult(h, cut, r, added, index + 1, maxPolymorphismDepth)
    requires |classes| <= |added| <= index + 1 && 1 <= |added|
    requires added[..|classes|] == classes && added[0] == cut
    ensures WalkResult(h, cut, r, classes, index, maxPolymorphismDepth)
  {
    assert r[..|classes|] == r[..|added|][..|classes|];
  }

  /** A round whose current class has nowhere to go ends the walk in a final state. */
  lemma WalkStops(h: Hierarchy, cut: ClassId, current: ClassId, classes: seq<ClassId>, index: int)
    requires WalkState(h, cut, current, classes, index)
    requires NextClass(h, current).None?
    ensures var added := if current in classes then classes else classes + [current];
      && |added| <= index + 1 && added[..|classes|] == classes
      && added[0] == cut && NoDuplicates(added) && Chained(h, added)
      && var next := NextClass(h, added[|added| - 1]);
         next.None? || next.value in added
  {
    var added := if current in classes then classes else classes + [current];
    assert added[..|classes|] == classes;
  }

  /** A round whose current class leads on keeps the walk state, one round later. */
  lemma WalkAdvances(h: Hierarchy, cut: ClassId, current: ClassId, classes: seq<ClassId>, index: int)
    requires WalkState(h, cut, current, classes, index)
    requires NextClass(h, current).Some?
    ensures var added := if current in classes then classes else classes + [current];
      && added[..|classes|] == classes
      && WalkState(h, cut, NextClass(h, current).value, added, index + 1)
  {
    var added := if current in classes then classes else classes + [current];
    assert added[..|classes|] == classes;
    if current in classes {
      var m :| 0 <= m < |classes| && classes[m] == current;
      if m < |classes| - 1 {
        assert NextClass(h, classes[m]) == Some(classes[m + 1]);
      }
    }
  }

  /**
   * The classes `getLLMProcessManager` shows the model: the class under test, then its
   * superclasses in order while each has a qualified name outside `java.`, without
   * repeats and at most `maxPolymorphismDepth` of them; the list ends early only where the
   * chain stops or runs into a class already listed.
   */
  function SelectedClasses(h: Hierarchy, cut: ClassId, maxPolymorphismDepth: int): (r: seq<ClassId>)
    ensures maxPolymorphismDepth < 1 ==> r == []
    ensures maxPolymorphismDepth >= 1 ==> 1 <= |r| <= maxPolymorphismDepth && r[0] == cut
    ensures NoDuplicates(r)
    ensures forall j :: 0 < j < |r| ==> h.superClass(r[j - 1]) == Some(r[j]) && NamedOutsideJava(h, r[j])
    ensures |r| >= 1 ==>
              var next := NextClass(h, r[|r| - 1]);
              |r| == maxPolymorphismDepth || next.None? || next.value in r
  {
    var r := Walk(h, cut, [], 0, maxPolymorphismDepth);
    WalkProperties(h, cut, cut, [], 0, maxPolymorphismDepth);
    forall j | 0 < j < |r|
      ensures h.superClass(r[j - 1]) == Some(r[j]) && NamedOutsideJava(h, r[j])
    {
      assert NextClass(h, r[j - 1]) == Some(r[j]);
    }
    r
  }

  /** The superclass walk of `getLLMProcessManager`, as the source runs it. */
  method SelectClassesToTest(h: Hierarchy, cutPsiClass: ClassId, maxPolymorphismDepth: int)
    returns (classesToTest: seq<ClassId>)
    ensures classesToTest == SelectedClasses(h, cutPsiClass, maxPolymorphismDepth)
  {
    classesToTest := [];
    var currentPsiClass := cutPsiClass;
    var index := 0;
    while index < maxPolymorphismDepth
      invariant 0 <= index && (index <= maxPolymorphismDepth || index == 0)
      invariant Walk(h, currentPsiClass, classesToTest, index, maxPolymorphismDepth)
                == Walk(h, cutPsiClass, [], 0, maxPolymorphismDepth)
      decreases maxPolymorphismDepth - index
    {
      if currentPsiClass !in classesToTest {
        classesToTest := classesToTest + [currentPsiClass];
      }
      var next := NextClass(h, currentPsiClass);
      if next.None? {
        break;
      }
      currentPsiClass := next.value;
      index := index + 1;
    }
  }

  /** `SettingsArguments.maxPolyDepth` / `maxInputParamsDepth`: the configured depth lowered by its counter. */
  function Depth(configured: int, reducing: int): int {
    configured - reducing
  }

  /** How far a depth can still be lowered before reaching the floor of 1. */
  function Excess(depth: int): nat {
    if depth > 1 then depth - 1 else 0
  }

  /** The prompt built at the given depths is within the length limit. */
  predicate Fits(prompt: (int, int) -> string, withinLimit: string -> bool, polyDepth: int, inputDepth: int) {
    withinLimit(prompt(polyDepth, inputDepth))
  }

  /** The counters and the prompt the reduction loop ends with. */
  datatype Reduction = Reduction(polyDepthReducing: int, inputParamsDepthReducing: int, prompt: string)

  /**
   * The prompt-reduction loop: while the prompt is over the limit, lower the
   * polymorphism depth while it exceeds 1, then the input-parameter depth while it
   * exceeds 1. It ends with a prompt that fits or with both depths at their floor, having
   * lowered each depth no further than needed: every skipped depth gave a prompt over the
   * limit, and the input depth was lowered only at the final polymorphism depth.
   */
  function ReducedPrompt(maxPolyDepth: int, maxInputParamsDepth: int, polyDepthReducing: int, inputParamsDepthReducing: int,
                         prompt: (int, int) -> string, withinLimit: string -> bool): (r: Reduction)
    ensures r.prompt == prompt(Depth(maxPolyDepth, r.polyDepthReducing), Depth(maxInputParamsDepth, r.inputParamsDepthReducing))
    ensures withinLimit(r.prompt)
            || (Depth(maxPolyDepth, r.polyDepthReducing) <= 1 && Depth(maxInputParamsDepth, r.inputParamsDepthReducing) <= 1)
    ensures polyDepthReducing <= r.polyDepthReducing <= polyDepthReducing + Excess(Depth(maxPolyDepth, polyDepthReducing))
    ensures inputParamsDepthReducing <= r.inputParamsDepthReducing
            <= inputParamsDepthReducing + Excess(Depth(maxInputParamsDepth, inputParamsDepthReducing))
    ensures r.inputParamsDepthReducing > inputParamsDepthReducing ==> Depth(maxPolyDepth, r.polyDepthReducing) <= 1
    ensures forall d :: Depth(maxPolyDepth, r.polyDepthReducing) < d <= Depth(maxPolyDepth, polyDepthReducing)
                        ==> !Fits(prompt, withinLimit, d, Depth(maxInputParamsDepth, inputParamsDepthReducing))
    ensures forall d :: Depth(maxInputParamsDepth, r.inputParamsDepthReducing) < d <= Depth(maxInputParamsDepth, inputParamsDepthReducing)
                        ==> !Fits(prompt, withinLimit, Depth(maxPolyDepth, r.polyDepthReducing), d)
    decreases Excess(Depth(maxPolyDepth, polyDepthReducing)) + Excess(Depth(maxInputParamsDepth, inputParamsDepthReducing))
  {
    var p := prompt(Depth(maxPolyDepth, polyDepthReducing), Depth(maxInputParamsDepth, inputParamsDepthReducing));
    if !withinLimit(p) && Depth(maxPolyDepth, polyDepthReducing) > 1 then
      ReducedPrompt(maxPolyDepth, maxInputParamsDepth, polyDepthReducing + 1, inputParamsDepthReducing, prompt, withinLimit)
    else if !withinLimit(p) && Depth(maxInputParamsDepth, inputParamsDepthReducing) > 1 then
      ReducedPrompt(maxPolyDepth, maxInputParamsDepth, polyDepthReducing, inputParamsDepthReducing + 1, prompt, withinLimit)
    else
      Reduction(polyDepthReducing, inputParamsDepthReducing, p)
  }

  /** Starting from untouched counters, the loop lowers the depths at most `(P - 1) + (I - 1)` times. */
  lemma ReductionBound(maxPolyDepth: int, maxInputParamsDepth: int, prompt: (int, int) -> string, withinLimit: string -> bool)
    requires maxPolyDepth >= 1 && maxInputParamsDepth >= 1
    ensures var r := ReducedPrompt(maxPolyDepth, maxInputParamsDepth, 0, 0, prompt, withinLimit);
      0 <= r.polyDepthReducing + r.inputParamsDepthReducing <= (maxPolyDepth - 1) + (maxInputParamsDepth - 1)
  {
  }

  /** A prompt that fits at the configured depths is sent as it is, with no reduction. */
  lemma NoReductionWhenFits(maxPolyDepth: int, maxInputParamsDepth: int, polyDepthReducing: int, inputParamsDepthReducing: int,
                            prompt: (int, int) -> string, withinLimit: string -> bool)
    requires Fits(prompt, withinLimit, Depth(maxPolyDepth, polyDepthReducing), Depth(maxInputParamsDepth, inputParamsDepthReducing))
    ensures ReducedPrompt(maxPolyDepth, maxInputParamsDepth, polyDepthReducing, inputParamsDepthReducing, prompt, withinLimit)
            == Reduction(polyDepthReducing, inputParamsDepthReducing,
                         prompt(Depth(maxPolyDepth, polyDepthReducing), Depth(maxInputParamsDepth, inputParamsDepthReducing)))
  {
  }

  /** The reduction warning is due when some depth was ever lowered and the final prompt fits. */
  predicate WarnsAboutReduction(r: Reduction, withinLimit: string -> bool) {
    (r.polyDepthReducing != 0 || r.inputParamsDepthReducing != 0) && withinLimit(r.prompt)
  }

  /** The reduction warning: the bundle's `promptReduction` text and the depths in use. */
  const PolyDepthLabel: string := "Maximum depth of polygons is "
  const InputDepthLabel: string := "Maximum depth for input parameters is "

  function ReductionWarning(bundle: string -> string, polyDepth: int, inputDepth: int): string {
    bundle("promptReduction") + "\n"
    + PolyDepthLabel + IntToString(polyDepth) + ".\n"
    + InputDepthLabel + IntToString(inputDepth) + "."
  }

  /** The warning opens with the bundle's text on a line of its own and closes with the input-parameter depth. */
  lemma ReductionWarningShape(bundle: string -> string, polyDepth: int, inputDepth: int)
    ensures StartsWith(ReductionWarning(bundle, polyDepth, inputDepth), bundle("promptReduction") + "\n")
    ensures EndsWith(ReductionWarning(bundle, polyDepth, inputDepth), IntToString(inputDepth) + ".")
  {
    var head := bundle("promptReduction") + "\n";
    var s1 := head + PolyDepthLabel;
    var s2 := s1 + IntToString(polyDepth);
    var s3 := s2 + ".\n";
    var s4 := s3 + InputDepthLabel;
    var s5 := s4 + IntToString(inputDepth);
    PrefixExtends(head, head, PolyDepthLabel);
    PrefixExtends(s1, head, IntToString(polyDepth));
    PrefixExtends(s2, head, ".\n");
    PrefixExtends(s3, head, InputDepthLabel);
    PrefixExtends(s4, head, IntToString(inputDepth));
    PrefixExtends(s5, head, ".");
    SuffixOfConcat(s4, IntToString(inputDepth), ".");
  }

  /** A prefix of `s` stays a prefix of anything `s` is extended to. */
  lemma PrefixExtends(s: string, prefix: string, more: string)
    requires StartsWith(s, prefix)
    ensures StartsWith(s + more, prefix)
  {
    assert (s + more)[..|prefix|] == s[..|prefix|];
  }

  lemma SuffixOfConcat(front: string, last: string, end: string)
    ensures EndsWith(front + last + end, last + end)
  {
    var w := front + last + end;
    assert w[|w| - |last + end|..] == last + end;
  }

  /** `PromptManager(project, classesToTest[0], classesToTest)` for the fragment, as a function of the two depths. */
  function PromptBuilder(promptFor: (CodeType, ClassId, seq<ClassId>, int, int) -> string, codeType: CodeType,
                         classesToTest: seq<ClassId>): (int, int) -> string
    requires |classesToTest| >= 1
  {
    (polyDepth, inputDepth) => promptFor(codeType, classesToTest[0], classesToTest, polyDepth, inputDepth)
  }

  /**
   * What `getLLMProcessManager` settles on: the classes selected at the current
   * polymorphism depth, then the reduction loop over the prompt built from them.
   */
  function PreparedRequest(h: Hierarchy, cut: ClassId, codeType: CodeType, maxPolyDepth: int, maxInputParamsDepth: int,
                           polyDepthReducing: int, inputParamsDepthReducing: int,
                           promptFor: (CodeType, ClassId, seq<ClassId>, int, int) -> string,
                           withinLimit: string -> bool): Reduction
    requires Depth(maxPolyDepth, polyDepthReducing) >= 1
  {
    var classesToTest := SelectedClasses(h, cut, Depth(maxPolyDepth, polyDepthReducing));
    ReducedPrompt(maxPolyDepth, maxInputParamsDepth, polyDepthReducing, inputParamsDepthReducing,
                  PromptBuilder(promptFor, codeType, classesToTest), withinLimit)
  }

  /**
   * The prepared prompt is the one built for the class under test and the classes
   * selected at the starting polymorphism depth, at the depths the reduction settled on;
   * it fits, or both depths reached their floor.
   */
  lemma PreparedRequestPrompt(h: Hierarchy, cut: ClassId, codeType: CodeType, maxPolyDepth: int, maxInputParamsDepth: int,
                              polyDepthReducing: int, inputParamsDepthReducing: int,
                              promptFor: (CodeType, ClassId, seq<ClassId>, int, int) -> string,
                              withinLimit: string -> bool)
    requires Depth(maxPolyDepth, polyDepthReducing) >= 1
    ensures var r := PreparedRequest(h, cut, codeType, maxPolyDepth, maxInputParamsDepth, polyDepthReducing,
                                     inputParamsDepthReducing, promptFor, withinLimit);
      && r.prompt == promptFor(codeType, cut, SelectedClasses(h, cut, Depth(maxPolyDepth, polyDepthReducing)),
                               Depth(maxPolyDepth, r.polyDepthReducing), Depth(maxInputParamsDepth, r.inputParamsDepthReducing))
      && (withinLimit(r.prompt)
          || (Depth(maxPolyDepth, r.polyDepthReducing) <= 1 && Depth(maxInputParamsDepth, r.inputParamsDepthReducing) <= 1))
  {
  }

  /** The `while (true)` reduction loop, as the source runs it on the workspace counters. */
  method ReducePrompt(maxPolyDepth: int, maxInputParamsDepth: int, prompt: (int, int) -> string,
                      withinLimit: string -> bool, data: TestGenerationData)
    returns (finalPrompt: string)
    modifies data
    ensures var r := ReducedPrompt(maxPolyDepth, maxInputParamsDepth, old(data.polyDepthReducing),
                                   old(data.inputParamsDepthReducing), prompt, withinLimit);
      && data.polyDepthReducing == r.polyDepthReducing
      && data.inputParamsDepthReducing == r.inputParamsDepthReducing
      && finalPrompt == r.prompt
    ensures data.compilableTestCases == old(data.compilableTestCases)
  {
    ghost var target := ReducedPrompt(maxPolyDepth, maxInputParamsDepth, data.polyDepthReducing,
                                      data.inputParamsDepthReducing, prompt, withinLimit);
    while true
      invariant ReducedPrompt(maxPolyDepth, maxInputParamsDepth, data.polyDepthReducing,
                              data.inputParamsDepthReducing, prompt, withinLimit) == target
      invariant data.compilableTestCases == old(data.compilableTestCases)
      decreases Excess(Depth(maxPolyDepth, data.polyDepthReducing)) + Excess(Depth(maxInputParamsDepth, data.inputParamsDepthReducing))
    {
      finalPrompt := prompt(Depth(maxPolyDepth, data.polyDepthReducing), Depth(maxInputParamsDepth, data.inputParamsDepthReducing));
      if !withinLimit(finalPrompt) {
        if Depth(maxPolyDepth, data.polyDepthReducing) > 1 {
          data.polyDepthReducing := data.polyDepthReducing + 1;
          continue;
        }
        if Depth(maxInputParamsDepth, data.inputParamsDepthReducing) > 1 {
          data.inputParamsDepthReducing := data.inputParamsDepthReducing + 1;
          continue;
        }
      }
      break;
    }
  }

  class Llm {
    const llmErrorManager: LLMErrorManager

    constructor (llmErrorManager: LLMErrorManager)
      ensures this.llmErrorManager == llmErrorManager
    {
      this.llmErrorManager := llmErrorManager;
    }

    /**
     * `getLLMProcessManager`: select the classes, reduce the prompt, warn about a
     * reduction that made the prompt fit, and hand the final prompt on.
     */
    method GetLLMProcessManager(h: Hierarchy, cutPsiClass: ClassId, codeType: CodeType,
                                maxPolyDepth: int, maxInputParamsDepth: int,
                                promptFor: (CodeType, ClassId, seq<ClassId>, int, int) -> string,
                                withinLimit: string -> bool, bundle: string -> string, data: TestGenerationData)
      returns (manager: LLMProcessManager)
      requires Depth(maxPolyDepth, data.polyDepthReducing) >= 1
      modifies data, llmErrorManager
      ensures var r := PreparedRequest(h, cutPsiClass, codeType, maxPolyDepth, maxInputParamsDepth,
                                       old(data.polyDepthReducing), old(data.inputParamsDepthReducing), promptFor, withinLimit);
        && data.polyDepthReducing == r.polyDepthReducing
        && data.inputParamsDepthReducing == r.inputParamsDepthReducing
        && manager == LLMProcessManager(r.prompt)
        && llmErrorManager.notices == old(llmErrorManager.notices)
             + (if WarnsAboutReduction(r, withinLimit)
                then [Warning(ReductionWarning(bundle, Depth(maxPolyDepth, r.polyDepthReducing),
                                               Depth(maxInputParamsDepth, r.inputParamsDepthReducing)))]
                else [])
      ensures data.compilableTestCases == old(data.compilableTestCases)
    {
      var classesToTest := SelectClassesToTest(h, cutPsiClass, Depth(maxPolyDepth, data.polyDepthReducing));
      var prompt := ReducePrompt(maxPolyDepth, maxInputParamsDepth, PromptBuilder(promptFor, codeType, classesToTest),
                                 withinLimit, data);
      if (data.polyDepthReducing != 0 || data.inputParamsDepthReducing != 0) && withinLimit(prompt) {
        llmErrorManager.WarningProcess(
          ReductionWarning(bundle, Depth(maxPolyDepth, data.polyDepthReducing),
                           Depth(maxInputParamsDepth, data.inputParamsDepthReducing)));
      }
      manager := LLMProcessManager(prompt);
    }

    /** `isCorrectToken`: without a token, report the bundle's `missingToken` error. */
    method IsCorrectToken(isTokenSet: bool, bundle: string -> string) returns (ok: bool)
      modifies llmErrorManager
      ensures ok == isTokenSet
      ensures llmErrorManager.notices
              == old(llmErrorManager.notices) + (if isTokenSet then [] else [Error(bundle("missingToken"))])
    {
      if !isTokenSet {
        llmErrorManager.ErrorProcess(bundle("missingToken"));
        return false;
      }
      return true;
    }

    /**
     * `generateTestsForClass` / `...ForMethod` / `...ForLine`: refuse, with the token
     * error and before any other step, when no token is set; otherwise prepare the
     * request the pipeline is started with.
     */
    method GenerateTests(codeType: CodeType, isTokenSet: bool, h: Hierarchy, cutPsiClass: ClassId,
                         maxPolyDepth: int, maxInputParamsDepth: int,
                         promptFor: (CodeType, ClassId, seq<ClassId>, int, int) -> string,
                         withinLimit: string -> bool, bundle: string -> string, data: TestGenerationData)
      returns (manager: Option<LLMProcessManager>)
      requires isTokenSet ==> Depth(maxPolyDepth, data.polyDepthReducing) >= 1
      modifies data, llmErrorManager
      ensures manager.Some? <==> isTokenSet
      ensures !isTokenSet ==>
                && llmErrorManager.notices == old(llmErrorManager.notices) + [Error(bundle("missingToken"))]
                && data.polyDepthReducing == old(data.polyDepthReducing)
                && data.inputParamsDepthReducing == old(data.inputParamsDepthReducing)
      ensures isTokenSet ==>
                var r := PreparedRequest(h, cutPsiClass, codeType, maxPolyDepth, maxInputParamsDepth,
                                         old(data.polyDepthReducing), old(data.inputParamsDepthReducing), promptFor, withinLimit);
                && manager == Some(LLMProcessManager(r.prompt))
                && data.polyDepthReducing == r.polyDepthReducing
                && data.inputParamsDepthReducing == r.inputParamsDepthReducing
                && llmErrorManager.notices == old(llmErrorManager.notices)
                     + (if WarnsAboutReduction(r, withinLimit)
                        then [Warning(ReductionWarning(bundle, Depth(maxPolyDepth, r.polyDepthReducing),
                                                       Depth(maxInputParamsDepth, r.inputParamsDepthReducing)))]
                        else [])
      ensures data.compilableTestCases == old(data.compilableTestCases)
    {
      var ok := IsCorrectToken(isTokenSet, bundle);
      if !ok {
        return None;
      }
      var m := GetLLMProcessManager(h, cutPsiClass, codeType, maxPolyDepth, maxInputParamsDepth,
                                    promptFor, withinLimit, bundle, data);
      return Some(m);
    }
  }
}
