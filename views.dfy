/**
 * The application's content dispatch (App.renderContent in App.tsx): which
 * screen is shown for the current view.
 */
module Views {
  import opened Wrappers
  import opened Types

  /** What the main area shows. */
  datatype Screen =
    | DocumentGeneratorScreen(documentType: LegalDocumentType)
    | ChatScreen(title: string, topic: string)
    | CalculatorScreen
    | HomeScreen

  /** The four views that open a chat. */
  const ChatViews: set<AppView> := {GeneralChat, EjrayeAhkamHoghooghi, EjrayeAhkamKeyfari, LegalAnalysis}

  /** The screen for a view: a document generator if the record has the view, else the switch. */
  function RenderContent(v: AppView): (s: Screen)
    ensures s.DocumentGeneratorScreen? <==> v in ViewToDocumentTypeMap
    ensures s.DocumentGeneratorScreen? ==> s.documentType == ViewToDocumentTypeMap[v] == ViewValue(v)
    ensures s.ChatScreen? <==> v in ChatViews
    ensures s.CalculatorScreen? <==> v == CostCalculator
    ensures s.HomeScreen? <==> v == Home
  {
    match DocumentTypeOf(v)
    case Some(docType) => DocumentGeneratorScreen(docType)
    case None =>
      match v
      case Home => HomeScreen
      case GeneralChat =>
        ChatScreen("چت عمومی حقوقی", "عمومی حقوقی و کیفری")
      case CostCalculator => CalculatorScreen
      case EjrayeAhkamHoghooghi =>
        ChatScreen("رویه اجرای احکام حقوقی", "قوانین و رویه اجرای احکام حقوقی")
      case EjrayeAhkamKeyfari =>
        ChatScreen("رویه اجرای احکام کیفری", "قوانین و رویه اجرای احکام کیفری")
      case LegalAnalysis =>
        ChatScreen("آنالیز حقوقی و سوالات تخصصی", "تحلیل دقیق سوالات مطابق قانون، رویه حاکم و نظریات دکترین")
      case _ => HomeScreen
  }

  /** Each chat view opens a chat with a topic of its own. */
  lemma ChatTopicsDistinct(a: AppView, b: AppView)
    requires a in ChatViews && b in ChatViews && a != b
    ensures RenderContent(a).topic != RenderContent(b).topic
  {
  }
}
