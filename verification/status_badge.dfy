/**
 * `components/features/threads/status-badge.tsx`: a thread's status drawn as a badge, labelled
 * in the reader's language. Eight languages have labels; any other locale reads English.
 */
module StatusBadge {
  import opened Wrappers
  import opened Domain
  import opened Badge

  datatype Locale = En | Es | Ru | Fr | Ar | Zh | Hi | Pt

  /** The locale code each label is filed under. */
  function Code(l: Locale): string {
    match l
    case En => "en" case Es => "es" case Ru => "ru" case Fr => "fr"
    case Ar => "ar" case Zh => "zh" case Hi => "hi" case Pt => "pt"
  }

  /** The labelled locale a code names, if any. */
  function LocaleOf(code: string): (r: Option<Locale>)
    ensures r.Some? ==> Code(r.value) == code
  {
    if code == "en" then Some(En) else if code == "es" then Some(Es)
    else if code == "ru" then Some(Ru) else if code == "fr" then Some(Fr)
    else if code == "ar" then Some(Ar) else if code == "zh" then Some(Zh)
    else if code == "hi" then Some(Hi) else if code == "pt" then Some(Pt)
    else None
  }

  /** Every labelled locale is recognised by its own code. */
  lemma CodesRoundTrip(l: Locale)
    ensures LocaleOf(Code(l)) == Some(l)
  {}

  /** The label table. */
  function Label(s: ThreadStatus, l: Locale): string {
    match s
    case New =>
      (match l
       case En => "New" case Es => "Nuevo" case Ru => "Новый" case Fr => "Nouveau"
       case Ar => "جديد" case Zh => "新" case Hi => "नया" case Pt => "Novo")
    case UnderReview =>
      (match l
       case En => "Under Review" case Es => "En revisión" case Ru => "На рассмотрении"
       case Fr => "En cours d'examen" case Ar => "قيد المراجعة" case Zh => "审核中"
       case Hi => "समीक्षा के अधीन" case Pt => "Em revisão")
    case Planned =>
      (match l
       case En => "Planned" case Es => "Planificado" case Ru => "Запланировано" case Fr => "Planifié"
       case Ar => "مخطط" case Zh => "已计划" case Hi => "नियोजित" case Pt => "Planejado")
    case Completed =>
      (match l
       case En => "Completed" case Es => "Completado" case Ru => "Завершено" case Fr => "Terminé"
       case Ar => "مكتمل" case Zh => "已完成" case Hi => "पुरा हुआ" case Pt => "Concluído")
    case WontFix =>
      (match l
       case En => "Won't Fix" case Es => "No se solucionará" case Ru => "Не будет исправлено"
       case Fr => "Ne sera pas corrigé" case Ar => "لن يتم إصلاحه" case Zh => "不予修复"
       case Hi => "ठीक नहीं किया जाएगा" case Pt => "Não será corrigido")
  }

  /** Every status has a label in every labelled locale. */
  lemma LabelsAreNonEmpty(s: ThreadStatus, l: Locale)
    ensures Label(s, l) != ""
  {}

  /**
   * `selectStatusLabel`: the label filed under the locale's code, or the English label when
   * there is none or it is empty.
   */
  function SelectStatusLabel(s: ThreadStatus, locale: string): (r: string)
    ensures LocaleOf(locale).None? ==> r == Label(s, En)
    ensures LocaleOf(locale).Some? ==> r == Label(s, LocaleOf(locale).value)
    ensures r != ""
  {
    match LocaleOf(locale)
    case Some(l) =>
      LabelsAreNonEmpty(s, l);
      var own := Label(s, l);
      if own != "" then own else Label(s, En)
    case None =>
      LabelsAreNonEmpty(s, En);
      Label(s, En)
  }

  /** A labelled locale reads its own label: the English fallback only serves other locales. */
  lemma KnownLocaleReadsOwnLabel(s: ThreadStatus, l: Locale)
    ensures SelectStatusLabel(s, Code(l)) == Label(s, l)
  {
    CodesRoundTrip(l);
  }

  function StatusVariant(s: ThreadStatus): (r: Variant)
    ensures r == Secondary <==> s == New
    ensures r == Destructive <==> s == WontFix
  {
    match s
    case New => Secondary
    case WontFix => Destructive
    case _ => Default
  }
}
