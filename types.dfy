/** The record and the enumeration shared by the client. */
module Types {

  /** One person detected in an analysed image. */
  datatype AnalysisResult = AnalysisResult(gender: string, age: string, description: string)

  /** The four phases of an analysis session. */
  datatype AnalysisState = Idle | Analyzing | Success | Error
}
