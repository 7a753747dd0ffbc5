/**
 * The lesson catalogue as loaded from the bundled education file: sections of
 * lessons, each lesson a run of pages followed by multiple-choice questions.
 * These are plain records; the lesson screens' logic lives in LessonMain and
 * LessonDetail.
 */
module Lessons {
  datatype Page = Page(id: int, title: string, content: string)

  datatype Answer = Answer(id: int, answer: string, isCorrect: bool)

  datatype Question = Question(id: int, question: string, answers: seq<Answer>)

  datatype Lesson = Lesson(id: int, title: string, description: string, pages: seq<Page>, questions: seq<Question>)

  datatype LessonSection = LessonSection(id: int, title: string, lessons: seq<Lesson>)
}
