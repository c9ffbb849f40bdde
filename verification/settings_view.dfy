/** The lecture settings tab (components/lecture/SettingsView.tsx): saving
    an edited title, deleting the lecture and its audio, and the duration
    label. The database and storage calls are outcomes passed in. */
module SettingsView {
  import opened Wrappers
  import opened Text
  import opened LectureRows

  /** What `handleSaveTitle` does: the title it writes, if any; whether
      edit mode ends; the row handed to `onLectureUpdate`; whether the
      failure alert is shown. */
  datatype SaveOutcome = SaveOutcome(write: Option<string>, stopsEditing: bool, reported: Option<Lecture>, alerted: bool)

  const TitleUpdateFailed := "Failed to update title"

  /** `handleSaveTitle`: a title that trims to the current one is not
      written and edit mode ends; otherwise the trimmed title is written,
      and `updated` is the row the update returns or its failure. */
  function SaveTitle(title: string, current: Lecture, updated: Result<Lecture, string>): (r: SaveOutcome)
    ensures r.write.None? <==> Trim(title) == current.title
    ensures r.write.Some? ==> r.write.value == Trim(title) && IsTrimmed(r.write.value)
    ensures r.stopsEditing <==> r.write.None? || updated.Ok?
    ensures r.alerted <==> r.write.Some? && updated.Err?
    ensures r.reported.Some? <==> r.write.Some? && updated.Ok?
    ensures r.reported.Some? ==> r.reported.value == updated.value
  {
    if Trim(title) == current.title then SaveOutcome(None, true, None, false)
    else
      TrimTrimmed(Trim(title));
      match updated
      case Ok(row) => SaveOutcome(Some(Trim(title)), true, Some(row), false)
      case Err(_) => SaveOutcome(Some(Trim(title)), false, None, true)
  }

  /** Surrounding whitespace alone never causes a write. */
  lemma PaddingIsNoWrite(current: Lecture, c: char, updated: Result<Lecture, string>)
    requires IsWhitespace(c) && IsTrimmed(current.title)
    ensures SaveTitle([c] + current.title + [c], current, updated).write.None?
  {
    TrimAroundWhitespace([c] + current.title, c);
    TrimAroundWhitespace(current.title, c);
    TrimTrimmed(current.title);
  }

  /** Saving again after a successful save, with the row the update
      returned, writes nothing. */
  lemma SaveTwiceWritesOnce(title: string, row: Lecture, again: Result<Lecture, string>)
    requires row.title == Trim(title)
    ensures SaveTitle(title, row, again).write.None?
  {
  }

  /** The calls and navigations `handleDelete` makes, in order. */
  datatype Action = DeleteRow(id: string) | RemoveAudio(path: string) | Navigate(route: string) | Alert(message: string)

  /** What `handleDelete` does, and whether the button is left busy. */
  datatype DeleteOutcome = DeleteOutcome(actions: seq<Action>, isDeleting: bool)

  const DeleteFailed := "Failed to delete lecture"
  const DashboardRoute := "/dashboard"

  /** `handleDelete`. Nothing happens without confirmation. The row is
      deleted first; only if that succeeds and the lecture has an audio path
      is the audio removed (a rejected removal lands in the same failure
      path, after the row is gone); then the user goes to the dashboard. */
  function HandleDelete(lecture: Lecture, confirmed: bool, deleteOk: bool, removeRejected: bool): (r: DeleteOutcome)
    ensures !confirmed ==> r == DeleteOutcome([], false)
    ensures confirmed ==> |r.actions| > 0 && r.actions[0] == DeleteRow(lecture.id)
    ensures (exists k :: 0 <= k < |r.actions| && r.actions[k].RemoveAudio?) <==> confirmed && deleteOk && Truthy(lecture.audioUrl)
    ensures forall k :: 0 <= k < |r.actions| && r.actions[k].RemoveAudio? ==>
      k == 1 && r.actions[k].path == lecture.audioUrl.value
    ensures Navigate(DashboardRoute) in r.actions <==> confirmed && deleteOk && !(Truthy(lecture.audioUrl) && removeRejected)
    ensures Alert(DeleteFailed) in r.actions <==> confirmed && !(Navigate(DashboardRoute) in r.actions)
    ensures r.isDeleting <==> Navigate(DashboardRoute) in r.actions
  {
    if !confirmed then DeleteOutcome([], false)
    else if !deleteOk then DeleteOutcome([DeleteRow(lecture.id), Alert(DeleteFailed)], false)
    else
      var removal := if Truthy(lecture.audioUrl) then [RemoveAudio(lecture.audioUrl.value)] else [];
      if Truthy(lecture.audioUrl) && removeRejected then
        assert ([DeleteRow(lecture.id)] + removal + [Alert(DeleteFailed)])[1].RemoveAudio?;
        DeleteOutcome([DeleteRow(lecture.id)] + removal + [Alert(DeleteFailed)], false)
      else
        var actions := [DeleteRow(lecture.id)] + removal + [Navigate(DashboardRoute)];
        assert Truthy(lecture.audioUrl) ==> actions[1].RemoveAudio?;
        DeleteOutcome(actions, true)
  }

  /** A removal that rejects reports the delete as failed although the row
      is already gone. */
  lemma FailedRemovalAfterDelete(lecture: Lecture)
    requires Truthy(lecture.audioUrl)
    ensures HandleDelete(lecture, true, true, true).actions
      == [DeleteRow(lecture.id), RemoveAudio(lecture.audioUrl.value), Alert(DeleteFailed)]
  {
  }

  /** `formatDuration` here: `N/A` for a missing or zero duration, else
      whole minutes, `m `, the remaining seconds unpadded, and `s`. */
  function FormatMinutes(seconds: Option<int>): (r: string)
    ensures seconds.None? || seconds.value == 0 ==> r == "N/A"
    ensures seconds.Some? && seconds.value != 0 ==> r != "N/A"
  {
    if seconds.None? || seconds.value == 0 then "N/A"
    else
      var s := seconds.value;
      IntToString(s / 60) + "m " + IntToString(JsRem(s, 60)) + "s"
  }

  /** For a positive duration the label is minutes and seconds below 60,
      without padding, that add back up to the duration. */
  lemma MinutesRoundTrip(s: nat)
    requires s > 0
    ensures exists minutes: string, secs: string ::
      && FormatMinutes(Some(s)) == minutes + "m " + secs + "s"
      && AllDigits(minutes) && AllDigits(secs) && 1 <= |secs| <= 2
      && (|secs| == 2 ==> secs[0] != '0')
      && DigitsValue(secs) < 60
      && DigitsValue(minutes) * 60 + DigitsValue(secs) == s
  {
    var minutes := NatToString(s / 60);
    var secs := NatToString(s % 60);
    NatToStringRoundTrip(s / 60);
    NatToStringRoundTrip(s % 60);
    if s % 60 >= 10 {
      assert secs[..1] == NatToString(s % 60 / 10);
    }
    assert FormatMinutes(Some(s)) == minutes + "m " + secs + "s";
  }
}
