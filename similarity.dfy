/** The similarity wrapper `_calculate_similarity` and the status bands the
    output-match checks put on its value. The ratio of Python's
    `SequenceMatcher` is library code and stays a parameter. */
module TextSimilarity {
  import opened Records

  /** `SequenceMatcher(None, a, b).ratio()`: some function into [0, 1]. */
  type RatioFn = f: (string, string) -> real | forall a, b :: 0.0 <= f(a, b) <= 1.0
    witness (a: string, b: string) => 0.0

  /** `_calculate_similarity(text1, text2)`, with None passed as "" (both are falsy). */
  function Similarity(ratio: RatioFn, text1: string, text2: string): (r: real)
    ensures 0.0 <= r <= 1.0
    ensures text1 == "" && text2 == "" ==> r == 1.0
    ensures (text1 == "") != (text2 == "") ==> r == 0.0
    ensures text1 != "" && text2 != "" ==> r == ratio(text1, text2)
  {
    if text1 == "" && text2 == "" then 1.0
    else if text1 == "" || text2 == "" then 0.0
    else ratio(text1, text2)
  }

  /** The subject and body bands: passed above 0.85, warning above 0.7, failed otherwise. */
  function Band(similarity: real): (s: Status)
    ensures s == Passed <==> similarity > 0.85
    ensures s == Warning <==> 0.7 < similarity <= 0.85
    ensures s == Failed <==> similarity <= 0.7
  {
    if similarity > 0.85 then Passed else if similarity > 0.7 then Warning else Failed
  }

  /** A higher similarity never gets a worse band. */
  lemma BandMonotone(s1: real, s2: real)
    requires s1 <= s2
    ensures Band(s1) == Passed ==> Band(s2) == Passed
    ensures Band(s2) == Failed ==> Band(s1) == Failed
  {
  }
}
