/**
 * The document-generator form (DocumentGenerator in App.tsx): five text
 * fields, the generated text, a loading flag and an error message, and the
 * submit handler. The document service is a parameter: a function from the
 * request to the generated text or the error it throws.
 */
module DocumentForm {
  import opened Types

  /** Everything the form sends to the document service. */
  datatype DocumentRequest = DocumentRequest(
    documentType: LegalDocumentType,
    plaintiffInfo: string,
    defendantInfo: string,
    subject: string,
    facts: string,
    evidence: string)

  /** How the service call settles: with the document text, or by throwing an error whose message may be empty. */
  datatype GenerationResult = Generated(text: string) | GenerationError(message: string)

  /** The message shown when the thrown error carries no message. */
  const DefaultErrorText: string := "خطایی رخ داده است."

  /** `err.message || default`: the error's own message unless it is empty. */
  function ErrorText(message: string): (t: string)
    ensures t != ""
    ensures message != "" ==> t == message
    ensures message == "" ==> t == DefaultErrorText
  {
    if message != "" then message else DefaultErrorText
  }

  /**
   * One mounted form. Its document type is a prop: every generator view
   * renders it unkeyed in the same place, so moving between them gives the
   * same instance a new type, and an effect then clears the form.
   */
  class DocumentGenerator {
    var documentType: LegalDocumentType
    var plaintiffInfo: string
    var defendantInfo: string
    var subject: string
    var facts: string
    var evidence: string
    var generatedText: string
    var isLoading: bool
    var error: string

    constructor (documentType: LegalDocumentType)
      ensures this.documentType == documentType
      ensures plaintiffInfo == "" && defendantInfo == "" && subject == "" && facts == "" && evidence == ""
      ensures generatedText == "" && !isLoading && error == ""
    {
      this.documentType := documentType;
      plaintiffInfo, defendantInfo, subject, facts, evidence := "", "", "", "", "";
      generatedText, isLoading, error := "", false, "";
    }

    /** The heading's title: the title table's entry for the document type. */
    function Title(): (t: string)
      reads this
      ensures documentType in LegalDocumentTypeMap && t == LegalDocumentTypeMap[documentType]
      ensures t != ""
    {
      LegalDocumentTypeMapTotal(documentType);
      DocumentTitle(documentType)
    }

    /**
     * A re-render with a document type, followed by the effect keyed on it:
     * when the type differs from the current one, the five fields, the
     * generated text and the error are cleared; a re-render with the same
     * type changes nothing. The loading flag is never touched.
     */
    method ReceiveDocumentType(documentType: LegalDocumentType)
      modifies this`documentType, this`plaintiffInfo, this`defendantInfo, this`subject,
        this`facts, this`evidence, this`generatedText, this`error
      ensures this.documentType == documentType
      ensures documentType != old(this.documentType) ==>
        && plaintiffInfo == "" && defendantInfo == "" && subject == "" && facts == "" && evidence == ""
        && generatedText == "" && error == ""
      ensures documentType == old(this.documentType) ==>
        && plaintiffInfo == old(plaintiffInfo) && defendantInfo == old(defendantInfo)
        && subject == old(subject) && facts == old(facts) && evidence == old(evidence)
        && generatedText == old(generatedText) && error == old(error)
    {
      if documentType != this.documentType {
        this.documentType := documentType;
        plaintiffInfo, defendantInfo, subject, facts, evidence := "", "", "", "", "";
        generatedText, error := "", "";
      }
    }

    /**
     * The submit handler, run to completion as one transition: loading is
     * set and the previous result and error cleared, the service is asked
     * with the form's fields, and on settling exactly one of the generated
     * text and the error is filled in; loading always ends.
     */
    method HandleSubmit(generateLegalDocument: DocumentRequest -> GenerationResult)
      returns (request: DocumentRequest)
      modifies this`generatedText, this`isLoading, this`error
      ensures request == DocumentRequest(documentType, plaintiffInfo, defendantInfo, subject, facts, evidence)
      ensures generateLegalDocument(request).Generated? ==>
        generatedText == generateLegalDocument(request).text && error == ""
      ensures generateLegalDocument(request).GenerationError? ==>
        generatedText == "" && error == ErrorText(generateLegalDocument(request).message) && error != ""
      ensures !isLoading
    {
      isLoading := true;
      error := "";
      generatedText := "";
      request := DocumentRequest(documentType, plaintiffInfo, defendantInfo, subject, facts, evidence);
      match generateLegalDocument(request) {
        case Generated(text) =>
          generatedText := text;
        case GenerationError(message) =>
          error := ErrorText(message);
      }
      isLoading := false;
    }
  }
}
