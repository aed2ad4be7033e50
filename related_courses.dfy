/**
 * The "related courses" block: a fixed table from a course id to the courses shown beside
 * it, each with the relation it has to the course being viewed.
 */
module RelatedCourses {

  /** A course as the table lists it, with its relation to the course being viewed. */
  datatype RelatedCourse = RelatedCourse(
    id: string, name: string, semester: string, description: string, instructor: string,
    tags: seq<string>, relation: string)

  const DeepLearning: RelatedCourse := RelatedCourse("dl-2026", "深度學習 (Deep Learning)", "2026 Spring",
    "深入探討深度神經網路、卷積神經網路、循環神經網路等深度學習模型與應用。", "王教授",
    ["DL", "Neural Networks", "CNN"], "進階課程")

  const ComputerVision: RelatedCourse := RelatedCourse("cv-2026", "電腦視覺 (Computer Vision)", "2026 Spring",
    "學習影像處理、物體偵測、影像分割等電腦視覺技術與最新研究成果。", "張教授",
    ["CV", "Image Processing", "DL"], "應用領域")

  const NaturalLanguage: RelatedCourse := RelatedCourse("nlp-2026", "自然語言處理 (NLP)", "2026 Spring",
    "介紹自然語言處理的核心技術，包括詞嵌入、語言模型、Transformer 等。", "陳教授",
    ["NLP", "Transformer", "LLM"], "應用領域")

  const Reinforcement: RelatedCourse := RelatedCourse("rl-2026", "強化學習 (Reinforcement Learning)", "2026 Spring",
    "學習強化學習的基本概念、Q-learning、Policy Gradient 等演算法。", "劉教授",
    ["RL", "Q-Learning", "Optimization"], "相關主題")

  const MachineLearning: RelatedCourse := RelatedCourse("ml-2026", "機器學習 (Machine Learning)", "2026 Spring",
    "本課程涵蓋機器學習的基礎理論與實務應用，包括監督式學習、非監督式學習、深度學習等主題。", "李教授",
    ["ML", "DL", "Optimization"], "基礎課程")

  /** The table: machine learning and deep learning are the only courses with related courses. */
  const CourseMap: map<string, seq<RelatedCourse>> := map[
    "ml-2026" := [DeepLearning, ComputerVision, NaturalLanguage, Reinforcement],
    "dl-2026" := [MachineLearning, ComputerVision, NaturalLanguage]]

  /** `getRelatedCourses`: the table's entry, or no courses for an id it does not list. */
  function GetRelatedCourses(courseId: string): (r: seq<RelatedCourse>)
    ensures courseId != "ml-2026" && courseId != "dl-2026" ==> r == []
    ensures forall k | 0 <= k < |r| :: r[k].id != courseId
  {
    if courseId in CourseMap then CourseMap[courseId] else []
  }

  /** The ids of a list of courses, in order. */
  function Ids(courses: seq<RelatedCourse>): (r: seq<string>)
    ensures |r| == |courses|
  {
    if courses == [] then [] else [courses[0].id] + Ids(courses[1..])
  }

  /** Machine learning lists deep learning, computer vision, language processing and reinforcement learning, in that order. */
  lemma MachineLearningRelated()
    ensures Ids(GetRelatedCourses("ml-2026")) == ["dl-2026", "cv-2026", "nlp-2026", "rl-2026"]
    ensures GetRelatedCourses("ml-2026")[0].relation == "進階課程"
  {
  }

  /** Deep learning lists machine learning, computer vision and language processing, in that order. */
  lemma DeepLearningRelated()
    ensures Ids(GetRelatedCourses("dl-2026")) == ["ml-2026", "cv-2026", "nlp-2026"]
    ensures GetRelatedCourses("dl-2026")[0].relation == "基礎課程"
  {
  }

  /** Machine learning and deep learning list each other: the relation is symmetric between them. */
  lemma MachineAndDeepLearningListEachOther()
    ensures "dl-2026" in Ids(GetRelatedCourses("ml-2026"))
    ensures "ml-2026" in Ids(GetRelatedCourses("dl-2026"))
  {
    MachineLearningRelated();
    DeepLearningRelated();
  }
}
