/** The lecture page's flashcard view (components/lecture/FlashcardsView.tsx):
    its own stricter flashcard dialect, `Q:` / `A:` or `**Q:**` / `**A:**`
    at the start of a line, one line per question and per answer, and its
    modulo navigation. */
module FlashcardsView {
  import opened Text
  import FlashcardDeck

  datatype Flashcard = Flashcard(question: string, answer: string)

  /** The stored content: already a list of cards, a text, or anything else. */
  datatype ContentData = CardList(cards: seq<Flashcard>) | TextContent(text: string) | OtherContent

  /** At most two leading asterisks removed (`\*?\*?`). */
  function DropStars(s: string): (r: string)
    ensures |r| <= |s| && r == s[|s| - |r|..]
  {
    if |s| >= 2 && s[0] == '*' && s[1] == '*' then s[2..]
    else if |s| >= 1 && s[0] == '*' then s[1..]
    else s
  }

  /** A trimmed line that opens with `X:` or with `**X:**`, case-sensitively. */
  predicate IsMarker(trimmed: string, letter: char) {
    StartsWith(trimmed, [letter, ':']) || StartsWith(trimmed, ['*', '*', letter, ':', '*', '*'])
  }

  /** A marker line with the pattern `^\*?\*?X:\*?\*?\s*` replaced by
      nothing and the rest trimmed: the marker with up to two asterisks on
      either side removed. */
  function StripMarker(trimmed: string, letter: char): (r: string)
    requires IsMarker(trimmed, letter)
    ensures IsTrimmed(r) && |r| <= |trimmed|
  {
    var rest := if StartsWith(trimmed, [letter, ':']) then trimmed[2..] else trimmed[4..];
    Trim(DropStars(rest))
  }

  /** The bold form loses both pairs of asterisks. */
  lemma StripBold(letter: char, text: string)
    requires IsTrimmed(text) && (|text| == 0 || text[0] != '*')
    ensures IsMarker(['*', '*', letter, ':', '*', '*'] + text, letter)
    ensures StripMarker(['*', '*', letter, ':', '*', '*'] + text, letter) == text
  {
    var line := ['*', '*', letter, ':', '*', '*'] + text;
    assert line[..6] == ['*', '*', letter, ':', '*', '*'];
    assert !StartsWith(line, [letter, ':']) by {
      assert line[1] == '*';
    }
    var rest := ['*', '*'] + text;
    assert line[4..] == rest;
    assert DropStars(rest) == text by {
      assert rest[0] == '*' && rest[1] == '*';
      assert rest[2..] == text;
    }
    TrimTrimmed(text);
  }

  /** The plain form loses the letter and the colon. */
  lemma StripPlain(letter: char, text: string)
    requires IsTrimmed(text) && letter != '*' && (|text| == 0 || text[0] != '*')
    ensures IsMarker([letter, ':'] + text, letter)
    ensures StripMarker([letter, ':'] + text, letter) == text
  {
    var line := [letter, ':'] + text;
    assert line[..2] == [letter, ':'];
    assert line[2..] == text;
    TrimTrimmed(text);
  }

  /** The loop's variables: the cards so far, the current question and the
      current answer. */
  datatype Reader = Reader(cards: seq<Flashcard>, question: string, answer: string)

  const Start := Reader([], "", "")

  predicate Complete(question: string, answer: string) {
    question != "" && answer != ""
  }

  /** Every card has a question and an answer. */
  predicate AllComplete(cards: seq<Flashcard>) {
    forall k :: 0 <= k < |cards| ==> Complete(cards[k].question, cards[k].answer)
  }

  /** Emit the current card if it is complete. */
  function Emit(r: Reader): (cards: seq<Flashcard>)
    ensures AllComplete(r.cards) ==> AllComplete(cards)
    ensures cards == r.cards || (Complete(r.question, r.answer) && cards == r.cards + [Flashcard(r.question, r.answer)])
  {
    if Complete(r.question, r.answer) then r.cards + [Flashcard(r.question, r.answer)] else r.cards
  }

  /** The loop body for one line. */
  function Step(r: Reader, line: string): (s: Reader)
    ensures AllComplete(r.cards) ==> AllComplete(s.cards)
    ensures !IsMarker(Trim(line), 'Q') && !IsMarker(Trim(line), 'A') ==> s == r
    ensures IsMarker(Trim(line), 'Q') ==> s == Reader(Emit(r), StripMarker(Trim(line), 'Q'), "")
    ensures !IsMarker(Trim(line), 'Q') && IsMarker(Trim(line), 'A') ==> s == r.(answer := StripMarker(Trim(line), 'A'))
  {
    var trimmed := Trim(line);
    if IsMarker(trimmed, 'Q') then Reader(Emit(r), StripMarker(trimmed, 'Q'), "")
    else if IsMarker(trimmed, 'A') then r.(answer := StripMarker(trimmed, 'A'))
    else r
  }

  /** The reader after the given lines. */
  function Fold(lines: seq<string>): (r: Reader)
    ensures AllComplete(r.cards)
    decreases |lines|
  {
    if |lines| == 0 then Start else Step(Fold(lines[..|lines| - 1]), lines[|lines| - 1])
  }

  /** The cards the view shows for its content. */
  function Cards(data: ContentData): seq<Flashcard> {
    match data
    case CardList(cards) => cards
    case TextContent(text) => Emit(Fold(Split(text, '\n')))
    case OtherContent => []
  }

  /** The view's `parseFlashcards`, as the loop the source runs. */
  method ParseFlashcards(data: ContentData) returns (cards: seq<Flashcard>)
    ensures cards == Cards(data)
    ensures data.CardList? ==> cards == data.cards
    ensures data.OtherContent? ==> cards == []
    ensures data.TextContent? ==> AllComplete(cards)
  {
    if data.CardList? {
      return data.cards;
    }
    if data.OtherContent? {
      return [];
    }
    cards := [];
    var lines := Split(data.text, '\n');
    var question := "";
    var answer := "";
    for i := 0 to |lines|
      invariant Reader(cards, question, answer) == Fold(lines[..i])
    {
      assert lines[..i + 1][..i] == lines[..i];
      var trimmed := Trim(lines[i]);
      if IsMarker(trimmed, 'Q') {
        if question != "" && answer != "" {
          cards := cards + [Flashcard(question, answer)];
        }
        question := StripMarker(trimmed, 'Q');
        answer := "";
      } else if IsMarker(trimmed, 'A') {
        answer := StripMarker(trimmed, 'A');
      }
    }
    assert lines[..|lines|] == lines;
    if question != "" && answer != "" {
      cards := cards + [Flashcard(question, answer)];
    }
  }

  // ----- Properties of the parser -----

  /** A later answer line replaces the earlier one. */
  lemma LaterAnswerWins(r: Reader, first: string, second: string)
    requires !IsMarker(Trim(first), 'Q') && IsMarker(Trim(first), 'A')
    requires !IsMarker(Trim(second), 'Q') && IsMarker(Trim(second), 'A')
    ensures Step(Step(r, first), second) == Step(r, second)
  {
  }

  /** Markers are case-sensitive: a line opening with a lower-case `q:` or
      `a:` is ignored. */
  lemma LowerCaseIgnored(r: Reader, rest: string)
    ensures Step(r, ['q', ':'] + rest) == r
    ensures Step(r, ['a', ':'] + rest) == r
  {
    var q := ['q', ':'] + rest;
    var a := ['a', ':'] + rest;
    NotMarkerWhenFirstDiffers(q);
    NotMarkerWhenFirstDiffers(a);
  }

  /** A line opening with a character other than whitespace, an asterisk
      or a marker letter is no marker. */
  lemma NotMarkerWhenFirstDiffers(line: string)
    requires |line| > 0 && !IsWhitespace(line[0]) && line[0] !in {'Q', 'A', '*'}
    ensures !IsMarker(Trim(line), 'Q') && !IsMarker(Trim(line), 'A')
  {
    TrimKeepsFirst(line);
    var t := Trim(line);
    if |t| >= 2 {
      assert t[..2][0] == line[0];
    }
    if |t| >= 6 {
      assert t[..6][0] == line[0];
    }
  }

  /** A carriage return left at a line's end by splitting on `\n` alone
      makes no difference. */
  lemma TrailingCarriageReturn(r: Reader, line: string)
    ensures Step(r, line + "\r") == Step(r, line)
  {
    TrimAroundWhitespace(line, '\r');
  }

  // ----- Navigation -----

  /** The view's position in the card list; the controls are only shown
      when there are cards. */
  class Viewer {
    var count: nat
    var currentIndex: nat
    var isFlipped: bool

    ghost predicate Valid()
      reads this
    {
      0 < count && currentIndex < count
    }

    constructor (count: nat)
      requires count > 0
      ensures Valid() && this.count == count && currentIndex == 0 && !isFlipped
    {
      this.count := count;
      currentIndex := 0;
      isFlipped := false;
    }

    /** `nextCard`: unflip, and move on modulo the number of cards. */
    method NextCard()
      requires Valid()
      modifies this`currentIndex, this`isFlipped
      ensures Valid() && !isFlipped
      ensures currentIndex == FlashcardDeck.NextIndex(old(currentIndex), count)
    {
      isFlipped := false;
      currentIndex := (currentIndex + 1) % count;
    }

    /** `prevCard`: unflip, and move back modulo the number of cards. */
    method PrevCard()
      requires Valid()
      modifies this`currentIndex, this`isFlipped
      ensures Valid() && !isFlipped
      ensures currentIndex == FlashcardDeck.PreviousIndex(old(currentIndex), count)
    {
      isFlipped := false;
      PrevIsModulo(currentIndex, count);
      currentIndex := (currentIndex - 1 + count) % count;
    }
  }

  /** `(i - 1 + n) % n` is the deck's wrap-around step back. */
  lemma PrevIsModulo(i: nat, n: nat)
    requires i < n
    ensures (i - 1 + n) % n == FlashcardDeck.PreviousIndex(i, n)
  {
    if i == 0 {
      FlashcardDeck.ModUnique(n - 1, n, 0, n - 1);
    } else {
      FlashcardDeck.ModUnique(i - 1 + n, n, 1, i - 1);
    }
  }
}
