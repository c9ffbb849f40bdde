/** A row of the `lectures` table as the dashboard pages read it
    (lib/supabase/types.ts); `id` and dates are opaque strings. */
module LectureRows {
  import opened Wrappers

  datatype Lecture = Lecture(
    id: string,
    userId: string,
    title: string,
    audioUrl: Option<string>,
    transcript: Option<string>,
    duration: Option<int>)

  /** A string field is truthy when it is present and not empty. */
  predicate Truthy(s: Option<string>) {
    s.Some? && s.value != ""
  }
}
