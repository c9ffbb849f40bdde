/** The "My notes" page (app/dashboard/notes/page.tsx): a search box and a
    type filter over the user's lectures, and the counts on the filter
    buttons. Its duration label is the dashboard's, `Dashboard.FormatClock`. */
module NotesPage {
  import opened Text
  import opened LectureRows

  /** The three filter buttons. */
  datatype FilterType = All | WithNotes | NoNotes

  /** The lower-cased query occurs in the lower-cased title, or in the
      lower-cased transcript when there is one. */
  predicate MatchesSearch(lecture: Lecture, query: string) {
    || Contains(ToLower(lecture.title), ToLower(query))
    || (lecture.transcript.Some? && Contains(ToLower(lecture.transcript.value), ToLower(query)))
  }

  /** `with-notes` keeps lectures with a non-empty transcript, `no-notes`
      the others, `all` every lecture. */
  predicate MatchesType(lecture: Lecture, filter: FilterType) {
    match filter
    case All => true
    case WithNotes => Truthy(lecture.transcript)
    case NoNotes => !Truthy(lecture.transcript)
  }

  /** `filteredLectures`: the lectures passing both tests, in order. */
  function Filtered(lectures: seq<Lecture>, query: string, filter: FilterType): (r: seq<Lecture>)
    ensures |r| <= |lectures|
    ensures forall l :: l in r <==> l in lectures && MatchesSearch(l, query) && MatchesType(l, filter)
    decreases |lectures|
  {
    if |lectures| == 0 then []
    else
      var rest := Filtered(lectures[1..], query, filter);
      assert lectures == [lectures[0]] + lectures[1..];
      if MatchesSearch(lectures[0], query) && MatchesType(lectures[0], filter) then [lectures[0]] + rest
      else rest
  }

  /** Filtering commutes with concatenation, so the result keeps the
      lectures' order: it is a subsequence of the list. */
  lemma {:induction false} FilteredConcat(front: seq<Lecture>, back: seq<Lecture>, query: string, filter: FilterType)
    ensures Filtered(front + back, query, filter) == Filtered(front, query, filter) + Filtered(back, query, filter)
    decreases |front|
  {
    if |front| > 0 {
      assert (front + back)[1..] == front[1..] + back;
      FilteredConcat(front[1..], back, query, filter);
    } else {
      assert front + back == back;
    }
  }

  /** Filtering a filtered list changes nothing. */
  lemma {:induction false} FilteredIdempotent(lectures: seq<Lecture>, query: string, filter: FilterType)
    ensures Filtered(Filtered(lectures, query, filter), query, filter) == Filtered(lectures, query, filter)
    decreases |lectures|
  {
    if |lectures| > 0 {
      FilteredIdempotent(lectures[1..], query, filter);
      var rest := Filtered(lectures[1..], query, filter);
      if MatchesSearch(lectures[0], query) && MatchesType(lectures[0], filter) {
        assert ([lectures[0]] + rest)[1..] == rest;
      }
    }
  }

  /** Every title contains the empty query, so an empty search on `all`
      shows the whole list. */
  lemma {:induction false} EmptySearchKeepsAll(lectures: seq<Lecture>)
    ensures Filtered(lectures, "", All) == lectures
    decreases |lectures|
  {
    if |lectures| > 0 {
      ContainsEmpty(ToLower(lectures[0].title));
      EmptySearchKeepsAll(lectures[1..]);
      assert lectures == [lectures[0]] + lectures[1..];
    }
  }

  /** The count on the `With Notes` button. */
  function WithNotesCount(lectures: seq<Lecture>): nat
    decreases |lectures|
  {
    if |lectures| == 0 then 0
    else (if Truthy(lectures[0].transcript) then 1 else 0) + WithNotesCount(lectures[1..])
  }

  /** The count on the `No Notes` button. */
  function NoNotesCount(lectures: seq<Lecture>): nat
    decreases |lectures|
  {
    if |lectures| == 0 then 0
    else (if Truthy(lectures[0].transcript) then 0 else 1) + NoNotesCount(lectures[1..])
  }

  /** The two counts add up to the `All` count. */
  lemma {:induction false} CountsPartition(lectures: seq<Lecture>)
    ensures WithNotesCount(lectures) + NoNotesCount(lectures) == |lectures|
    decreases |lectures|
  {
    if |lectures| > 0 {
      CountsPartition(lectures[1..]);
    }
  }

  /** With an empty search, each button's count is the length of the list
      it shows. */
  lemma {:induction false} CountsMatchEmptySearch(lectures: seq<Lecture>)
    ensures |Filtered(lectures, "", WithNotes)| == WithNotesCount(lectures)
    ensures |Filtered(lectures, "", NoNotes)| == NoNotesCount(lectures)
    decreases |lectures|
  {
    if |lectures| > 0 {
      ContainsEmpty(ToLower(lectures[0].title));
      CountsMatchEmptySearch(lectures[1..]);
    }
  }
}
