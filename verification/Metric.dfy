/**
 * The result of a comparison (Metric.ComparisonResult in Metric.java).
 *
 * Every field of the Java record is final, so the result is a value here.
 * The reason string is kept as the tag that decides its text and the count
 * it reports.
 */
module Metric {
  import opened Images

  datatype Reason =
    | DimensionsDoNotMatch
    | BinaryIdentical
    | PerceptuallyIndistinguishable(different: int)
    | VisiblyDifferent(different: int)
  {
    /** The first line of the reason text. */
    function Headline(): string
    {
      match this
      case DimensionsDoNotMatch => "Image dimensions do not match"
      case BinaryIdentical => "Images are binary identical"
      case PerceptuallyIndistinguishable(_) => "Images are perceptually indistinguishable"
      case VisiblyDifferent(_) => "Images are visibly different"
    }
  }

  datatype ComparisonResult = ComparisonResult(
    passed: bool,
    pixelsFailed: int,
    errorSum: real,
    reason: Reason,
    imageDifference: RGBAImage?)

  /**
   * `ComparisonResult(passed, reason)`: a verdict reached without looking at
   * pixels, so no count (-1), no error and no difference image.
   */
  function Verdict(passed: bool, reason: Reason): (r: ComparisonResult)
    ensures r.passed == passed && r.reason == reason
    ensures r.pixelsFailed == -1 && r.errorSum == 0.0 && r.imageDifference == null
  {
    Full(passed, -1, 0.0, reason, null)
  }

  /** The five-argument constructor: every argument is kept unchanged. */
  function Full(passed: bool, pixelsFailed: int, errorSum: real, reason: Reason,
                imageDifference: RGBAImage?): (r: ComparisonResult)
    ensures r.passed == passed && r.pixelsFailed == pixelsFailed && r.errorSum == errorSum
    ensures r.reason == reason && r.imageDifference == imageDifference
  {
    ComparisonResult(passed, pixelsFailed, errorSum, reason, imageDifference)
  }
}
