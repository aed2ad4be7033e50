/** The lesson list's icon column: one link per lesson link that is set to a non-empty url. */
module LessonList {
  import opened Wrappers
  import opened JsText
  import opened DataStore

  datatype IconKind = YouTube | Ppt | Pdf

  /** An icon linking to a url. */
  datatype IconLink = IconLink(kind: IconKind, href: string)

  /** The icon for one link field: present exactly when the field is truthy. */
  function IconFor(kind: IconKind, link: Option<string>): (r: seq<IconLink>)
    ensures |r| <= 1
    ensures r != [] <==> Truthy(link)
    ensures r != [] ==> r[0] == IconLink(kind, link.value)
  {
    if Truthy(link) then [IconLink(kind, link.value)] else []
  }

  /** The icons a lesson row shows, in the order YouTube, PPT, PDF. */
  function LessonIcons(lesson: Lesson): seq<IconLink> {
    IconFor(YouTube, lesson.youtubeLink) + IconFor(Ppt, lesson.pptLink) + IconFor(Pdf, lesson.pdfLink)
  }

  /** Each icon is shown exactly when its link is truthy, and links to that url. */
  lemma LessonIconsShown(lesson: Lesson)
    ensures var icons := LessonIcons(lesson);
      (IconLink(YouTube, lesson.youtubeLink.GetOr("")) in icons <==> Truthy(lesson.youtubeLink))
      && (IconLink(Ppt, lesson.pptLink.GetOr("")) in icons <==> Truthy(lesson.pptLink))
      && (IconLink(Pdf, lesson.pdfLink.GetOr("")) in icons <==> Truthy(lesson.pdfLink))
      && |icons| <= 3
  {
  }

  /** Every icon shown links somewhere: no icon has an empty url. */
  lemma LessonIconsHaveTargets(lesson: Lesson)
    ensures forall icon | icon in LessonIcons(lesson) :: icon.href != ""
  {
  }

  /** A lesson entry without links (as the built-in ones are) shows no icon. */
  lemma NoLinksNoIcons(lesson: Lesson)
    requires lesson.youtubeLink.None? && lesson.pptLink.None? && lesson.pdfLink.None?
    ensures LessonIcons(lesson) == []
  {
  }
}
