/**
 * `Workspace.testGenerationData`: the per-generation state shared by the prompt loop and
 * the coverage collector.
 */
module Workspace {

  /** `TestCaseGeneratedByLLM`: a generated test method's name and its printed form (`toString()`). */
  datatype TestCaseGeneratedByLLM = TestCaseGeneratedByLLM(name: string, text: string)

  class TestGenerationData {
    /** How far the polymorphism depth and the input-parameter depth have been lowered. */
    var polyDepthReducing: int
    var inputParamsDepthReducing: int
    /** The generated test cases whose file compiled. */
    var compilableTestCases: seq<TestCaseGeneratedByLLM>

    constructor ()
      ensures polyDepthReducing == 0 && inputParamsDepthReducing == 0 && compilableTestCases == []
    {
      polyDepthReducing := 0;
      inputParamsDepthReducing := 0;
      compilableTestCases := [];
    }
  }
}
