/** The records of an MOT history as the backend and the browser client
    receive them from the history service: one `MotTest` per test, most
    recent first, each carrying its reasons for rejection and comments. */
module MotData {

  datatype Option<T> = None | Some(value: T)

  datatype Result<T, E> = Ok(value: T) | Err(error: E)

  /** One reason for rejection, advisory or comment. A missing `type` or
      `text` key is the empty string, a missing `dangerous` flag is false;
      every comparison the code makes is against a non-empty constant, so
      the empty string behaves exactly as an absent key. A key present
      with a JSON null is not told apart from an absent one. */
  datatype Defect = Defect(kind: string, text: string, dangerous: bool)

  /** One MOT test. The optional keys are `Option`s. The valuation engine
      reads the test's `defects` list while the repair history summary and
      the browser client read `rfrAndComments`; both are kept. */
  datatype MotTest = MotTest(
    completedDate: Option<string>,
    expiryDate: Option<string>,
    testResult: Option<string>,
    odometerValue: Option<int>,
    odometerUnit: Option<string>,
    rfrAndComments: seq<Defect>,
    defects: seq<Defect>)

  /** Truthiness of an optional string in Python and JavaScript. */
  predicate TruthyText(o: Option<string>)
  {
    o.Some? && o.value != ""
  }

  /** Truthiness of an optional number in Python and JavaScript. */
  predicate TruthyNumber(o: Option<int>)
  {
    o.Some? && o.value != 0
  }

  predicate HasResult(t: MotTest, result: string)
  {
    t.testResult == Some(result)
  }
}
