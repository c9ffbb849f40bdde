/** The dashboard (app/dashboard/page.tsx): its duration and date labels,
    the greeting and lecture count, and the list after a lecture is
    deleted. */
module Dashboard {
  import opened Wrappers
  import opened Text
  import opened LectureRows

  const NotAvailable := "N/A"

  /** `formatDuration`: `N/A` for a missing or zero duration; otherwise
      `Math.floor(s / 60)`, a colon, and `s % 60` padded to two digits. */
  function FormatClock(seconds: Option<int>): (r: string)
    ensures seconds.None? || seconds.value == 0 <==> r == NotAvailable
  {
    if seconds.None? || seconds.value == 0 then NotAvailable
    else
      var s := seconds.value;
      var formatted := IntToString(s / 60) + ":" + PadStart2(IntToString(JsRem(s, 60)));
      assert formatted[|IntToString(s / 60)|] == ':';
      formatted
  }

  /** Reading back a two-digit field gives the number it pads. */
  lemma PaddedRoundTrip(n: nat)
    requires n < 100
    ensures |PadStart2(NatToString(n))| == 2 && AllDigits(PadStart2(NatToString(n)))
    ensures DigitsValue(PadStart2(NatToString(n))) == n
  {
    NatToStringRoundTrip(n);
    if n < 10 {
      var p := PadStart2(NatToString(n));
      assert p == "0" + [DigitChar(n)];
      assert p[..1] == "0";
      assert DigitsValue(p[..1]) == 0 by {
        assert p[..1][..0] == "";
      }
    }
  }

  /** For a positive duration the label is minutes, a colon and two
      digits of seconds below 60, and reading it back gives the duration. */
  lemma ClockRoundTrip(s: nat)
    requires s > 0
    ensures exists minutes: string, secs: string ::
      && FormatClock(Some(s)) == minutes + ":" + secs
      && AllDigits(minutes) && AllDigits(secs) && |secs| == 2
      && DigitsValue(secs) < 60
      && DigitsValue(minutes) * 60 + DigitsValue(secs) == s
  {
    var minutes := NatToString(s / 60);
    var secs := PadStart2(NatToString(s % 60));
    NatToStringRoundTrip(s / 60);
    PaddedRoundTrip(s % 60);
    assert FormatClock(Some(s)) == minutes + ":" + secs;
  }

  /** `formatDate` from the whole days since the lecture; dates a month
      or more back use the locale's rendering, given here. */
  function FormatDate(diffDays: int, localeDate: string): (r: string)
    ensures diffDays == 0 ==> r == "Today"
    ensures diffDays == 1 ==> r == "Yesterday"
    ensures 2 <= diffDays < 7 ==> r == NatToString(diffDays) + "d ago"
    ensures 7 <= diffDays < 30 ==> r == NatToString(diffDays / 7) + "w ago" && 1 <= diffDays / 7 <= 4
    ensures diffDays >= 30 ==> r == localeDate
    ensures diffDays < 0 ==> r == "-" + NatToString(-diffDays) + "d ago"
  {
    if diffDays == 0 then "Today"
    else if diffDays == 1 then "Yesterday"
    else if diffDays < 7 then IntToString(diffDays) + "d ago"
    else if diffDays < 30 then IntToString(diffDays / 7) + "w ago"
    else localeDate
  }

  /** A date in the future gets a negative day count, which is shown as
      that many days ago: a minus sign, the digits of the count, "d ago". */
  lemma FutureDateShowsNegativeDays(diffDays: int, localeDate: string)
    requires diffDays < 0
    ensures exists digits: string ::
      && FormatDate(diffDays, localeDate) == "-" + digits + "d ago"
      && AllDigits(digits) && DigitsValue(digits) == -diffDays
  {
    NatToStringRoundTrip(-diffDays);
    assert FormatDate(diffDays, localeDate) == "-" + NatToString(-diffDays) + "d ago";
  }

  /** The lectures without the one with `id`, in order. */
  function WithoutId(lectures: seq<Lecture>, id: string): (r: seq<Lecture>)
    ensures |r| <= |lectures|
    ensures forall k :: 0 <= k < |r| ==> r[k].id != id && r[k] in lectures
    ensures forall l :: l in lectures && l.id != id ==> l in r
    decreases |lectures|
  {
    if |lectures| == 0 then []
    else
      var rest := WithoutId(lectures[1..], id);
      assert forall l :: l in lectures[1..] ==> l in lectures;
      if lectures[0].id == id then rest else [lectures[0]] + rest
  }

  /** Deleting works entry by entry: the order of what remains is kept. */
  lemma {:induction false} WithoutIdConcat(front: seq<Lecture>, back: seq<Lecture>, id: string)
    ensures WithoutId(front + back, id) == WithoutId(front, id) + WithoutId(back, id)
    decreases |front|
  {
    if |front| > 0 {
      assert (front + back)[1..] == front[1..] + back;
      WithoutIdConcat(front[1..], back, id);
    } else {
      assert front + back == back;
    }
  }

  /** How many lectures carry `id`. */
  function CountId(lectures: seq<Lecture>, id: string): nat
    decreases |lectures|
  {
    if |lectures| == 0 then 0
    else (if lectures[0].id == id then 1 else 0) + CountId(lectures[1..], id)
  }

  /** Deleting removes exactly the entries with that id. */
  lemma {:induction false} WithoutIdCount(lectures: seq<Lecture>, id: string)
    ensures |WithoutId(lectures, id)| + CountId(lectures, id) == |lectures|
    decreases |lectures|
  {
    if |lectures| > 0 {
      WithoutIdCount(lectures[1..], id);
    }
  }

  /** `deleteLecture`: the list is unchanged unless the user confirms and
      the delete succeeds; then the lectures with that id are gone. */
  function DeleteLecture(lectures: seq<Lecture>, id: string, confirmed: bool, deleteOk: bool): (r: seq<Lecture>)
    ensures !confirmed || !deleteOk ==> r == lectures
    ensures confirmed && deleteOk ==> r == WithoutId(lectures, id)
  {
    if !confirmed || !deleteOk then lectures else WithoutId(lectures, id)
  }

  const NoLecturesYet := "No lectures yet. Get started by recording or uploading your first lecture."

  /** The count line under the greeting. */
  function CountLine(count: nat): (r: string)
    ensures count == 0 ==> r == NoLecturesYet
    ensures count == 1 ==> r == "You have 1 lecture"
    ensures count >= 2 ==> r == "You have " + NatToString(count) + " lectures"
  {
    if count == 0 then NoLecturesYet
    else "You have " + NatToString(count) + " lecture" + (if count == 1 then "" else "s")
  }

  /** The part of an email address before the first `@`. */
  function MailboxName(email: string): (r: string)
    ensures '@' !in r && StartsWith(email, r)
    ensures |r| < |email| ==> email[|r|] == '@'
  {
    var r := Split(email, '@')[0];
    SplitHead(email, '@');
    r
  }

  /** The first piece of a split is the text before the first separator. */
  lemma {:induction false} SplitHead(s: string, c: char)
    ensures StartsWith(s, Split(s, c)[0])
    ensures |Split(s, c)[0]| < |s| ==> s[|Split(s, c)[0]|] == c
  {
    var parts := Split(s, c);
    JoinSplit(s, c);
    if |parts| == 1 {
      assert Join(parts, [c]) == parts[0];
    } else {
      assert Join(parts, [c]) == parts[0] + [c] + Join(parts[1..], [c]);
      assert s[..|parts[0]|] == parts[0];
      assert s[|parts[0]|] == c;
    }
  }

  /** The heading: `Welcome back`, the mailbox name when there is an
      email, and `!`. */
  function Greeting(email: Option<string>): (r: string)
    ensures email.None? || email.value == "" ==> r == "Welcome back!"
    ensures email.Some? && email.value != "" ==> r == "Welcome back, " + MailboxName(email.value) + "!"
  {
    "Welcome back" + (if email.Some? && email.value != "" then ", " + MailboxName(email.value) else "") + "!"
  }
}
