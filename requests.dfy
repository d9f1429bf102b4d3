/**
 * The two calls the screens make into frontend/services/geminiService.ts, recorded as values.
 * The service itself is not part of this model: its reply reaches a screen as a parameter.
 */
module Requests {
  import opened Wrappers

  /** `getCropAdvisory(query, language)` */
  datatype AdvisoryCall = AdvisoryCall(query: string, language: string)

  /** `analyzePlantDisease(base64Image)`; `None` stands for JavaScript's `undefined`, which the
      screen passes when the image has no comma. */
  datatype DiagnosisCall = DiagnosisCall(base64Image: Option<string>)
}
