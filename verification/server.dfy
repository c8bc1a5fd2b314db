/** The HTTP surface: the root endpoint and the validation chain of the extraction endpoint,
    which answers with the fixed template content once validation passes. */
module Server {
  import opened Json
  import opened Forms

  const ConnectedMessage := "You're connected successfully."
  const PdfRequired := "PDF base64 data is required."
  const FormTypeRequired := "Form type is required."
  const InvalidFormType := "Invalid form type. Supported types: 125, 127a, 137"
  const AcceptedFormTypes: seq<string> := ["125"]

  /** The request body. */
  datatype PdfBase64Request = PdfBase64Request(formType: string, pdfBase64: string)

  datatype Response = HttpError(status: int, detail: string) | Ok(body: Json)

  /** `GET /`. */
  function Index(): (body: map<string, string>)
    ensures body.Keys == {"message"} && body["message"] == ConnectedMessage
  {
    map["message" := ConnectedMessage]
  }

  /** `POST /api/extract_from_pdf_base64`: three checks in order, each a 400; `template` is the
      parsed content of the application-data template file. */
  function ReadOutput(req: PdfBase64Request, template: Json): (resp: Response)
    ensures resp.Ok? <==> req.pdfBase64 != "" && req.formType == "125"
    ensures resp.Ok? ==> resp.body == template
    ensures resp.HttpError? ==> resp.status == 400
    ensures req.pdfBase64 == "" ==> resp == HttpError(400, PdfRequired)
    ensures req.pdfBase64 != "" && req.formType == "" ==> resp == HttpError(400, FormTypeRequired)
    ensures req.pdfBase64 != "" && req.formType != "" && req.formType != "125" ==> resp == HttpError(400, InvalidFormType)
  {
    if req.pdfBase64 == "" then HttpError(400, PdfRequired)
    else if req.formType == "" then HttpError(400, FormTypeRequired)
    else if req.formType !in AcceptedFormTypes then HttpError(400, InvalidFormType)
    else Ok(template)
  }

  /** The success body does not depend on the submitted document. */
  lemma SuccessIgnoresDocument(formType: string, pdfA: string, pdfB: string, template: Json)
    requires pdfA != "" && pdfB != ""
    ensures ReadOutput(PdfBase64Request(formType, pdfA), template) == ReadOutput(PdfBase64Request(formType, pdfB), template)
  {
  }

  /** The two form types the rejection message advertises are themselves rejected, as the
      pipelines' dispatch disables them. */
  lemma AdvertisedTypesRejected(pdfBase64: string, formType: string, template: Json)
    requires pdfBase64 != "" && formType in DisabledTypes
    ensures ReadOutput(PdfBase64Request(formType, pdfBase64), template) == HttpError(400, InvalidFormType)
    ensures Classify(formType).Disabled?
  {
  }

  /** The endpoint accepts exactly the form types the pipelines' dispatch gives a schema. */
  lemma EndpointAgreesWithDispatch(req: PdfBase64Request, template: Json)
    requires req.pdfBase64 != ""
    ensures ReadOutput(req, template).Ok? <==> Classify(req.formType).Acord125?
  {
  }
}
