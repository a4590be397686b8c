/**
 * The view identifiers of the legal assistant and its two constant tables:
 * the title of each legal document type, and the document type each
 * document-generator view produces (types.ts).
 */
module Types {
  import opened Wrappers

  /** One screen of the application; each member carries a string value. */
  datatype AppView =
    | Home
    | GeneralChat
    | DadkhastHoghooghi
    | DadkhastSabti
    | ShekayatKeyfari
    | DadkhastEdareKar
    | ShokvaieTazirat
    | LayeheHoghooghi
    | LayeheKeyfari
    | LayeheEdareKar
    | LayeheSabti
    | LayeheKhanevadeh
    | CostCalculator
    | EjrayeAhkamHoghooghi
    | EjrayeAhkamKeyfari
    | LegalAnalysis

  /**
   * The string value of an enum member. It is one of the LegalDocumentType
   * literals exactly for the ten document-generator views.
   */
  function ViewValue(v: AppView): (s: string)
    ensures s != ""
    ensures s in DocumentTypeValues <==> v !in NonDocumentViews
  {
    match v
    case Home => "home"
    case GeneralChat => "general_chat"
    case DadkhastHoghooghi => "dadkhast_hoghooghi"
    case DadkhastSabti => "dadkhast_sabti"
    case ShekayatKeyfari => "shekayat_keyfari"
    case DadkhastEdareKar => "dadkhast_edare_kar"
    case ShokvaieTazirat => "shokvaie_tazirat"
    case LayeheHoghooghi => "layehe_hoghooghi"
    case LayeheKeyfari => "layehe_keyfari"
    case LayeheEdareKar => "layehe_edare_kar"
    case LayeheSabti => "layehe_sabti"
    case LayeheKhanevadeh => "layehe_khanevadeh"
    case CostCalculator => "cost_calculator"
    case EjrayeAhkamHoghooghi => "ejraye_ahkam_hoghooghi"
    case EjrayeAhkamKeyfari => "ejraye_ahkam_keyfari"
    case LegalAnalysis => "legal_analysis"
  }

  /** The ten string literals of the LegalDocumentType union. */
  const DocumentTypeValues: set<string> := {
    "dadkhast_hoghooghi", "dadkhast_sabti", "shekayat_keyfari", "dadkhast_edare_kar",
    "shokvaie_tazirat", "layehe_hoghooghi", "layehe_keyfari", "layehe_edare_kar",
    "layehe_sabti", "layehe_khanevadeh"
  }

  /** A string-literal union type: a string that is one of the ten values. */
  type LegalDocumentType = s: string | s in DocumentTypeValues witness "dadkhast_hoghooghi"

  /** The Persian title of each document type. */
  const LegalDocumentTypeMap: map<LegalDocumentType, string> := map[
    "dadkhast_hoghooghi" := "دادخواست حقوقی",
    "dadkhast_sabti" := "دادخواست ثبتی",
    "shekayat_keyfari" := "شکواییه کیفری",
    "dadkhast_edare_kar" := "دادخواست اداره کار",
    "shokvaie_tazirat" := "شکواییه تعزیرات",
    "layehe_hoghooghi" := "لایحه حقوقی",
    "layehe_keyfari" := "لایحه کیفری",
    "layehe_edare_kar" := "لایحه اداره کار",
    "layehe_sabti" := "لایحه ثبتی",
    "layehe_khanevadeh" := "لایحه خانواده"
  ]

  /** The partial record from document-generator views to the document type they produce. */
  const ViewToDocumentTypeMap: map<AppView, LegalDocumentType> := map[
    DadkhastHoghooghi := "dadkhast_hoghooghi",
    DadkhastSabti := "dadkhast_sabti",
    ShekayatKeyfari := "shekayat_keyfari",
    DadkhastEdareKar := "dadkhast_edare_kar",
    ShokvaieTazirat := "shokvaie_tazirat",
    LayeheHoghooghi := "layehe_hoghooghi",
    LayeheKeyfari := "layehe_keyfari",
    LayeheEdareKar := "layehe_edare_kar",
    LayeheSabti := "layehe_sabti",
    LayeheKhanevadeh := "layehe_khanevadeh"
  ]

  /** The views that are not document generators. */
  const NonDocumentViews: set<AppView> :=
    {Home, GeneralChat, CostCalculator, EjrayeAhkamHoghooghi, EjrayeAhkamKeyfari, LegalAnalysis}

  /** All string values of the enum are pairwise distinct. */
  lemma ViewValueInjective(a: AppView, b: AppView)
    ensures ViewValue(a) == ViewValue(b) ==> a == b
  {
  }

  /** The record's keys are exactly the ten document-generator views. */
  lemma ViewToDocumentTypeKeys(v: AppView)
    ensures v in ViewToDocumentTypeMap <==> v !in NonDocumentViews
  {
  }

  /** Each mapped document type is the view's own enum string value. */
  lemma ViewToDocumentTypeIsViewValue(v: AppView)
    requires v in ViewToDocumentTypeMap
    ensures ViewToDocumentTypeMap[v] == ViewValue(v)
  {
  }

  /** No two views produce the same document type. */
  lemma ViewToDocumentTypeInjective(a: AppView, b: AppView)
    requires a in ViewToDocumentTypeMap && b in ViewToDocumentTypeMap
    ensures ViewToDocumentTypeMap[a] == ViewToDocumentTypeMap[b] ==> a == b
  {
    ViewToDocumentTypeIsViewValue(a);
    ViewToDocumentTypeIsViewValue(b);
    ViewValueInjective(a, b);
  }

  /** Every document type is produced by some view. */
  lemma ViewToDocumentTypeOnto(d: LegalDocumentType)
    ensures d in ViewToDocumentTypeMap.Values
  {
    var v :=
      if d == "dadkhast_hoghooghi" then DadkhastHoghooghi
      else if d == "dadkhast_sabti" then DadkhastSabti
      else if d == "shekayat_keyfari" then ShekayatKeyfari
      else if d == "dadkhast_edare_kar" then DadkhastEdareKar
      else if d == "shokvaie_tazirat" then ShokvaieTazirat
      else if d == "layehe_hoghooghi" then LayeheHoghooghi
      else if d == "layehe_keyfari" then LayeheKeyfari
      else if d == "layehe_edare_kar" then LayeheEdareKar
      else if d == "layehe_sabti" then LayeheSabti
      else LayeheKhanevadeh;
    assert ViewToDocumentTypeMap[v] == d;
  }

  /** Every document type has a title: the title table is total. */
  lemma LegalDocumentTypeMapTotal(d: LegalDocumentType)
    ensures d in LegalDocumentTypeMap && LegalDocumentTypeMap[d] != ""
  {
  }

  /** The document type a view produces, if any: the record lookup. */
  function DocumentTypeOf(v: AppView): (r: Option<LegalDocumentType>)
    ensures r.Some? <==> v !in NonDocumentViews
    ensures r.Some? ==> r.value == ViewValue(v)
  {
    ViewToDocumentTypeKeys(v);
    if v in ViewToDocumentTypeMap then Some(ViewToDocumentTypeMap[v]) else None
  }

  /** The title shown for a document type. */
  function DocumentTitle(d: LegalDocumentType): (t: string)
    ensures t != ""
    ensures forall e: LegalDocumentType :: e != d ==> LegalDocumentTypeMap[e] != t
  {
    LegalDocumentTypeMapTotal(d);
    LegalDocumentTypeMap[d]
  }
}
