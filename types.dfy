/** The records shared by the chat window, the sidebar and the AI service. */
module Types {

  /** A value that may be absent (`undefined` on the TypeScript side). */
  datatype Option<+T> = None | Some(value: T)

  /** Who wrote a message. */
  datatype MessageRole = User | Model | System

  /** One entry of the conversation log; `images` is absent unless the user attached some. */
  datatype ChatMessage = ChatMessage(role: MessageRole, text: string, images: Option<seq<string>>)

  /** The student editing the sidebar; the university list keeps insertion order. */
  datatype StudentProfile = StudentProfile(
    name: string,
    grade: string,
    mathLevel: string,
    targetUniversities: seq<string>)

  /** The profile the application starts with. */
  const InitialProfile: StudentProfile :=
    StudentProfile("김학생", "고3", "2등급", ["연세대학교", "한양대학교"])
}
