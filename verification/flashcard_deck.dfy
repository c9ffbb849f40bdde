/** The flashcard deck (components/FlashcardDeck.tsx): a line-by-line
    parser of `Q:` / `A:` blocks into numbered cards, and the deck's
    wrap-around navigation. */
module FlashcardDeck {
  import opened Wrappers
  import opened Text

  datatype Card = Card(id: nat, question: string, answer: string)

  /** The lines collected for the card being read. */
  datatype Block = Block(question: seq<string>, answer: seq<string>)

  /** Which block an unmarked line continues. */
  datatype Mode = InQuestion | InAnswer

  // ----- Blocks -----

  /** `lines.map(line => line.trim())`. */
  function TrimmedLines(lines: seq<string>): (r: seq<string>)
    ensures |r| == |lines|
    ensures forall k :: 0 <= k < |lines| ==> r[k] == Trim(lines[k])
  {
    seq(|lines|, i requires 0 <= i < |lines| => Trim(lines[i]))
  }

  /** `trimLines`: every line trimmed, the empty ones dropped. */
  function TrimLines(lines: seq<string>): (r: seq<string>)
    ensures forall k :: 0 <= k < |r| ==> r[k] != "" && IsTrimmed(r[k])
    ensures r == [] <==> forall k :: 0 <= k < |lines| ==> IsBlank(lines[k])
  {
    var trimmed := TrimmedLines(lines);
    assert forall k :: 0 <= k < |lines| ==> (trimmed[k] == "" <==> IsBlank(lines[k]));
    NonEmptyIsEmpty(trimmed);
    NonEmptyKeepsTrimmed(trimmed);
    NonEmpty(trimmed)
  }

  /** One line gives its trim, or nothing when it is blank. */
  lemma TrimLinesSingle(line: string)
    ensures TrimLines([line]) == if IsBlank(line) then [] else [Trim(line)]
  {
    assert TrimmedLines([line]) == [Trim(line)];
    assert [Trim(line)][1..] == [];
  }

  /** Lines are handled one by one, in order: with `TrimLinesSingle` this
      fixes the result for every list. */
  lemma TrimLinesConcat(front: seq<string>, back: seq<string>)
    ensures TrimLines(front + back) == TrimLines(front) + TrimLines(back)
  {
    var f, b := TrimmedLines(front), TrimmedLines(back);
    TrimmedLinesConcat(front, back);
    NonEmptyConcat(f, b);
    assert TrimLines(front) == NonEmpty(f);
    assert TrimLines(back) == NonEmpty(b);
  }

  lemma TrimmedLinesConcat(front: seq<string>, back: seq<string>)
    ensures TrimmedLines(front + back) == TrimmedLines(front) + TrimmedLines(back)
  {
    var whole, f, b := TrimmedLines(front + back), TrimmedLines(front), TrimmedLines(back);
    assert |whole| == |f + b|;
    forall k | 0 <= k < |whole| ensures whole[k] == (f + b)[k] {
      if k < |front| {
        assert (front + back)[k] == front[k];
        assert whole[k] == f[k];
      } else {
        assert (front + back)[k] == back[k - |front|];
        assert whole[k] == b[k - |front|];
      }
    }
  }

  /** No three newlines in a row. */
  predicate NoLongRun(s: string) {
    forall i :: 0 <= i < |s| - 2 ==> !(s[i] == '\n' && s[i + 1] == '\n' && s[i + 2] == '\n')
  }

  /** No two newlines in a row. */
  predicate NoBlankLine(s: string) {
    forall i :: 0 <= i < |s| - 1 ==> !(s[i] == '\n' && s[i + 1] == '\n')
  }

  /** The leading newlines of `s` removed. */
  function DropNewlines(s: string): (r: string)
    ensures |r| <= |s|
    decreases |s|
  {
    if |s| > 0 && s[0] == '\n' then DropNewlines(s[1..]) else s
  }

  /** `s.replace(/\n{3,}/g, '\n\n')`: each run of three or more newlines
      becomes two. */
  function CollapseNewlineRuns(s: string): string
    decreases |s|
  {
    if |s| == 0 then ""
    else if |s| >= 3 && s[0] == '\n' && s[1] == '\n' && s[2] == '\n' then "\n\n" + CollapseNewlineRuns(DropNewlines(s))
    else [s[0]] + CollapseNewlineRuns(s[1..])
  }

  /** Text without three newlines in a row has no run to collapse. */
  lemma {:induction false} CollapseWithoutRuns(s: string)
    requires NoLongRun(s)
    ensures CollapseNewlineRuns(s) == s
    decreases |s|
  {
    if |s| > 0 {
      assert NoLongRun(s[1..]);
      CollapseWithoutRuns(s[1..]);
    }
  }

  /** `k` newlines. */
  function Newlines(k: nat): (r: string)
    ensures |r| == k && forall i :: 0 <= i < k ==> r[i] == '\n'
  {
    seq(k, i => '\n')
  }

  /** Dropping the leading newlines of a run removes the whole run. */
  lemma {:induction false} DropWholeRun(k: nat, s: string)
    requires |s| == 0 || s[0] != '\n'
    ensures DropNewlines(Newlines(k) + s) == s
    decreases k
  {
    if k > 0 {
      assert (Newlines(k) + s)[1..] == Newlines(k - 1) + s;
      DropWholeRun(k - 1, s);
    } else {
      assert Newlines(k) + s == s;
    }
  }

  /** A run of three or more newlines collapses to two. */
  lemma CollapseLongRun(k: nat, s: string)
    requires k >= 3
    requires |s| == 0 || s[0] != '\n'
    ensures CollapseNewlineRuns(Newlines(k) + s) == "\n\n" + CollapseNewlineRuns(s)
  {
    var t := Newlines(k) + s;
    assert t[0] == '\n' && t[1] == '\n' && t[2] == '\n';
    DropWholeRun(k, s);
  }

  /** A run of one or two newlines is kept. */
  lemma {:induction false} CollapseShortRun(k: nat, s: string)
    requires 1 <= k <= 2
    requires |s| == 0 || s[0] != '\n'
    ensures CollapseNewlineRuns(Newlines(k) + s) == Newlines(k) + CollapseNewlineRuns(s)
    decreases k
  {
    var t := Newlines(k) + s;
    assert t[0] == '\n' && t[1..] == Newlines(k - 1) + s;
    assert !(|t| >= 3 && t[1] == '\n' && t[2] == '\n');
    if k == 2 {
      CollapseShortRun(1, s);
      assert Newlines(2) == "\n" + Newlines(1);
    } else {
      assert Newlines(0) + s == s;
    }
  }

  /** Text without a newline passes through unchanged. */
  lemma {:induction false} CollapseNewlineFree(x: string, y: string)
    requires '\n' !in x
    ensures CollapseNewlineRuns(x + y) == x + CollapseNewlineRuns(y)
    decreases |x|
  {
    if |x| > 0 {
      assert (x + y)[1..] == x[1..] + y;
      assert x[0] in x && (x + y)[0] == x[0];
      assert forall ch :: ch in x[1..] ==> ch in x;
      CollapseNewlineFree(x[1..], y);
      assert [x[0]] + (x[1..] + CollapseNewlineRuns(y)) == x + CollapseNewlineRuns(y);
    } else {
      assert x + y == y;
    }
  }

  /** Joining non-empty newline-free parts by single newlines leaves no blank line. */
  lemma {:induction false} JoinHasNoBlankLine(parts: seq<string>)
    requires forall k :: 0 <= k < |parts| ==> parts[k] != "" && '\n' !in parts[k]
    ensures NoBlankLine(Join(parts, "\n"))
    decreases |parts|
  {
    if |parts| >= 2 {
      JoinHasNoBlankLine(parts[1..]);
      JoinStartsWithFirst(parts[1..], "\n");
      var head := parts[0];
      var tail := Join(parts[1..], "\n");
      var s := Join(parts, "\n");
      assert s == head + "\n" + tail;
      assert tail[0] == parts[1][0];
      assert parts[1][0] in parts[1];
      assert head[|head| - 1] in head;
      forall i | 0 <= i < |s| - 1 ensures !(s[i] == '\n' && s[i + 1] == '\n') {
        if i < |head| - 1 {
          assert s[i] == head[i];
        } else if i == |head| - 1 {
          assert s[i] == head[|head| - 1];
        } else if i == |head| {
          assert s[i + 1] == tail[0];
        } else {
          assert s[i] == tail[i - |head| - 1] && s[i + 1] == tail[i - |head|];
        }
      }
    } else if |parts| == 1 {
      assert forall i :: 0 <= i < |parts[0]| ==> parts[0][i] in parts[0];
    }
  }

  /** `formatBlock`: the block's non-blank lines, trimmed, joined by
      newlines, with runs of three or more newlines cut to two. */
  function FormatBlock(lines: seq<string>): string
  {
    if |lines| == 0 then "" else CollapseNewlineRuns(Join(TrimLines(lines), "\n"))
  }

  /** For lines that hold no newline (every line of a split input), the
      block is the trimmed non-blank lines one per line: it is trimmed, and
      empty exactly when every line is blank. */
  lemma FormatBlockOfLines(lines: seq<string>)
    requires forall k :: 0 <= k < |lines| ==> '\n' !in lines[k]
    ensures FormatBlock(lines) == Join(TrimLines(lines), "\n")
    ensures IsTrimmed(FormatBlock(lines))
    ensures FormatBlock(lines) == "" <==> forall k :: 0 <= k < |lines| ==> IsBlank(lines[k])
  {
    var parts := TrimLines(lines);
    JoinOfTrimmedParts(parts, "\n");
    if |lines| > 0 {
      forall k | 0 <= k < |parts| ensures '\n' !in parts[k] {
        assert parts[k] in NonEmpty(seq(|lines|, i requires 0 <= i < |lines| => Trim(lines[i])));
        var i :| 0 <= i < |lines| && parts[k] == Trim(lines[i]);
        TrimKeepsCharacters(lines[i]);
      }
      JoinHasNoBlankLine(parts);
      CollapseWithoutRuns(Join(parts, "\n"));
    }
  }

  // ----- Markers -----

  predicate HasLineTerminator(s: string) {
    exists i | 0 <= i < |s| :: IsLineTerminator(s[i])
  }

  /** `line.match(/^x\s*[:\-]\s*(.*)$/i)` for the letter `x`, and the
      captured text trimmed: the letter in either case, optional
      whitespace, a colon or a hyphen, and the rest of the line, which must
      not hold a line terminator. */
  function MatchMarker(line: string, letter: char): (r: Option<string>)
    ensures r.Some? ==> |line| > 0 && LowerChar(line[0]) == letter && IsTrimmed(r.value)
  {
    if |line| == 0 || LowerChar(line[0]) != letter then None
    else
      var afterLetter := TrimStart(line[1..]);
      if |afterLetter| == 0 || (afterLetter[0] != ':' && afterLetter[0] != '-') then None
      else
        var rest := TrimStart(afterLetter[1..]);
        if HasLineTerminator(rest) then None else Some(Trim(rest))
  }

  /** Both cases of the letter and both separators are accepted, and the
      captured text is the rest of the line, trimmed. */
  lemma MarkerForms(letter: char, sep: char, rest: string)
    requires letter in {'q', 'Q', 'a', 'A'} && (sep == ':' || sep == '-')
    requires !HasLineTerminator(rest) && (|rest| == 0 || !IsWhitespace(rest[0]))
    ensures MatchMarker([letter, sep] + rest, LowerChar(letter)) == Some(Trim(rest))
  {
    var line := [letter, sep] + rest;
    assert line[1..] == [sep] + rest;
    assert line[1..][1..] == rest;
  }

  /** A line that starts with anything but the letter is no marker. */
  lemma OtherLetterIsNoMarker(line: string, letter: char)
    requires |line| > 0 && LowerChar(line[0]) != letter
    ensures MatchMarker(line, letter).None?
  {
  }

  // ----- The parser -----

  /** The parser's variables: the cards so far, the open block and the mode. */
  datatype Parser = Parser(cards: seq<Card>, working: Option<Block>, mode: Option<Mode>)

  const Start := Parser([], None, None)

  /** Cards numbered 1, 2, ... in order, each with a question and an answer. */
  predicate WellFormed(cards: seq<Card>) {
    forall k :: 0 <= k < |cards| ==> cards[k].id == k + 1 && cards[k].question != "" && cards[k].answer != ""
  }

  /** `pushCurrent`: close the open block, keeping it as the next card when
      both its question and its answer are non-empty. */
  function PushCurrent(p: Parser): (r: Parser)
    ensures r.working.None?
    ensures p.working.None? ==> r == p
    ensures p.working.Some? ==> r.mode.None?
    ensures WellFormed(p.cards) ==> WellFormed(r.cards)
    ensures r.cards == p.cards || (p.working.Some? && r.cards == p.cards + [Card(|p.cards| + 1,
              FormatBlock(p.working.value.question), FormatBlock(p.working.value.answer))])
  {
    if p.working.None? then p
    else
      var question := FormatBlock(p.working.value.question);
      var answer := FormatBlock(p.working.value.answer);
      var cards := if question != "" && answer != "" then p.cards + [Card(|p.cards| + 1, question, answer)] else p.cards;
      Parser(cards, None, None)
  }

  /** The body of the loop for one raw line. */
  function Step(p: Parser, rawLine: string): (r: Parser)
    ensures IsBlank(rawLine) ==> r == p
    ensures WellFormed(p.cards) ==> WellFormed(r.cards)
    ensures p.working.None? && MatchMarker(Trim(rawLine), 'q').None? && MatchMarker(Trim(rawLine), 'a').None? ==> r == p
    ensures MatchMarker(Trim(rawLine), 'q').Some? ==>
      r == Parser(PushCurrent(p).cards, Some(Block([MatchMarker(Trim(rawLine), 'q').value], [])), Some(InQuestion))
  {
    var trimmed := Trim(rawLine);
    if trimmed == "" then p
    else
      var q := MatchMarker(trimmed, 'q');
      if q.Some? then
        var closed := if p.working.Some? then PushCurrent(p) else p;
        Parser(closed.cards, Some(Block([q.value], [])), Some(InQuestion))
      else
        var a := MatchMarker(trimmed, 'a');
        if a.Some? then
          var block := p.working.GetOr(Block([], []));
          Parser(p.cards, Some(block.(answer := block.answer + [a.value])), Some(InAnswer))
        else if p.working.None? || p.mode.None? then p
        else if p.mode.value == InQuestion then
          Parser(p.cards, Some(p.working.value.(question := p.working.value.question + [trimmed])), p.mode)
        else
          Parser(p.cards, Some(p.working.value.(answer := p.working.value.answer + [trimmed])), p.mode)
  }

  /** The parser after the given lines. */
  function Fold(lines: seq<string>): (r: Parser)
    ensures WellFormed(r.cards)
    decreases |lines|
  {
    if |lines| == 0 then Start else Step(Fold(lines[..|lines| - 1]), lines[|lines| - 1])
  }

  /** The cards of `parseFlashcards(input)`: the input with CRLF turned into
      LF, split into lines, folded, and the last block closed. */
  function Parsed(input: string): (r: seq<Card>)
    ensures WellFormed(r)
  {
    PushCurrent(Fold(Split(ReplaceCrlf(input), '\n'))).cards
  }

  /** `parseFlashcards`, as the loop the source runs. */
  method ParseFlashcards(input: string) returns (cards: seq<Card>)
    ensures cards == Parsed(input)
    ensures forall k :: 0 <= k < |cards| ==> cards[k].id == k + 1
    ensures forall k :: 0 <= k < |cards| ==> cards[k].question != "" && cards[k].answer != ""
  {
    cards := [];
    var working: Option<Block> := None;
    var mode: Option<Mode> := None;
    var lines := Split(ReplaceCrlf(input), '\n');
    for i := 0 to |lines|
      invariant Parser(cards, working, mode) == Fold(lines[..i])
    {
      assert lines[..i + 1][..i] == lines[..i];
      var trimmed := Trim(lines[i]);
      if trimmed == "" {
        continue;
      }
      var q := MatchMarker(trimmed, 'q');
      if q.Some? {
        if working.Some? {
          var closed := PushCurrent(Parser(cards, working, mode));
          cards, working, mode := closed.cards, closed.working, closed.mode;
        }
        working := Some(Block([q.value], []));
        mode := Some(InQuestion);
        continue;
      }
      var a := MatchMarker(trimmed, 'a');
      if a.Some? {
        if working.None? {
          working := Some(Block([], []));
        }
        working := Some(working.value.(answer := working.value.answer + [a.value]));
        mode := Some(InAnswer);
        continue;
      }
      if working.None? || mode.None? {
        continue;
      }
      if mode.value == InQuestion {
        working := Some(working.value.(question := working.value.question + [trimmed]));
      } else {
        working := Some(working.value.(answer := working.value.answer + [trimmed]));
      }
    }
    assert lines[..|lines|] == lines;
    var closed := PushCurrent(Parser(cards, working, mode));
    cards := closed.cards;
  }

  // ----- Properties of the parser -----

  /** Blank lines are ignored wherever they appear. */
  lemma {:induction false} BlankLineIgnored(before: seq<string>, blank: string, after: seq<string>)
    requires IsBlank(blank)
    ensures Fold(before + [blank] + after) == Fold(before + after)
    decreases |after|
  {
    if |after| == 0 {
      assert before + [blank] + after == before + [blank];
      assert (before + [blank])[..|before|] == before;
      assert before + after == before;
    } else {
      var init := after[..|after| - 1];
      BlankLineIgnored(before, blank, init);
      assert (before + [blank] + after)[..|before + [blank] + after| - 1] == before + [blank] + init;
      assert (before + after)[..|before + after| - 1] == before + init;
    }
  }

  /** Input with CRLF line ends parses exactly like the same lines with LF. */
  lemma CrlfParsesAsLf(lines: seq<string>)
    requires forall k :: 0 <= k < |lines| ==> '\r' !in lines[k]
    ensures Parsed(Join(lines, "\r\n")) == Parsed(Join(lines, "\n"))
  {
    CrlfJoinIsLfJoin(lines);
    LfJoinHasNoCr(lines);
    ReplaceCrlfNoCr(Join(lines, "\n"));
  }

  /** Newline-free lines joined by LF are parsed line by line. */
  lemma ParsedLines(lines: seq<string>)
    requires |lines| >= 1
    requires forall k :: 0 <= k < |lines| ==> '\r' !in lines[k] && '\n' !in lines[k]
    ensures Parsed(Join(lines, "\n")) == PushCurrent(Fold(lines)).cards
  {
    LfJoinHasNoCr(lines);
    ReplaceCrlfNoCr(Join(lines, "\n"));
    SplitJoin(lines, '\n');
  }

  /** While no question marker has been seen, no card has been made, the
      open block (if any) has no question, and no line is read as question. */
  predicate NoQuestionYet(p: Parser) {
    p.cards == [] && (p.working.Some? ==> p.working.value.question == []) && p.mode != Some(InQuestion)
  }

  /** Without any question marker, answers open a block with an empty
      question, which is discarded: no card comes out. */
  lemma {:induction false} OrphanAnswersDiscarded(lines: seq<string>)
    requires forall k :: 0 <= k < |lines| ==> MatchMarker(Trim(lines[k]), 'q').None?
    ensures NoQuestionYet(Fold(lines))
    ensures PushCurrent(Fold(lines)).cards == []
    decreases |lines|
  {
    if |lines| > 0 {
      var init := lines[..|lines| - 1];
      OrphanAnswersDiscarded(init);
      StepWithoutQuestion(Fold(init), lines[|lines| - 1]);
    }
  }

  /** A line that is not a question marker keeps a parser without a question that way. */
  lemma StepWithoutQuestion(p: Parser, line: string)
    requires NoQuestionYet(p) && MatchMarker(Trim(line), 'q').None?
    ensures NoQuestionYet(Step(p, line))
  {
  }

  /** Lines before the first marker are ignored. */
  lemma {:induction false} LeadingTextIgnored(lines: seq<string>)
    requires forall k :: 0 <= k < |lines| ==>
      MatchMarker(Trim(lines[k]), 'q').None? && MatchMarker(Trim(lines[k]), 'a').None?
    ensures Fold(lines) == Start
    decreases |lines|
  {
    if |lines| > 0 {
      LeadingTextIgnored(lines[..|lines| - 1]);
    }
  }

  /** A question marker closes the open card: the block read so far becomes
      the next card when it has both parts. */
  lemma QuestionClosesCard(p: Parser, line: string)
    requires WellFormed(p.cards) && p.working.Some?
    requires MatchMarker(Trim(line), 'q').Some?
    ensures Step(p, line).cards == PushCurrent(p).cards
    ensures var question := FormatBlock(p.working.value.question);
            var answer := FormatBlock(p.working.value.answer);
            Step(p, line).cards == if question != "" && answer != "" then p.cards + [Card(|p.cards| + 1, question, answer)] else p.cards
  {
  }

  /** An answer marker adds its text to the open block's answer, opening
      a block with no question when none is open. */
  lemma AnswerExtendsBlock(p: Parser, line: string)
    requires MatchMarker(Trim(line), 'q').None? && MatchMarker(Trim(line), 'a').Some?
    ensures var b := p.working.GetOr(Block([], []));
            Step(p, line) == Parser(p.cards, Some(b.(answer := b.answer + [MatchMarker(Trim(line), 'a').value])), Some(InAnswer))
  {
  }

  /** An unmarked line continues the open block in the current mode. */
  lemma UnmarkedLineContinues(p: Parser, line: string)
    requires !IsBlank(line) && MatchMarker(Trim(line), 'q').None? && MatchMarker(Trim(line), 'a').None?
    requires p.working.Some? && p.mode.Some?
    ensures p.mode.value == InQuestion ==> Step(p, line).working.value.question == p.working.value.question + [Trim(line)]
    ensures p.mode.value == InAnswer ==> Step(p, line).working.value.answer == p.working.value.answer + [Trim(line)]
    ensures Step(p, line).cards == p.cards && Step(p, line).mode == p.mode
  {
  }

  // ----- Navigation -----

  /** `(prev + 1) % totalCards`. */
  function NextIndex(i: nat, n: nat): (r: nat)
    requires i < n
    ensures r < n
  {
    (i + 1) % n
  }

  /** `prev === 0 ? totalCards - 1 : prev - 1`. */
  function PreviousIndex(i: nat, n: nat): (r: nat)
    requires i < n
    ensures r < n
  {
    if i == 0 then n - 1 else i - 1
  }

  /** Previous undoes next, and next undoes previous. */
  lemma NextPreviousInverse(i: nat, n: nat)
    requires i < n
    ensures PreviousIndex(NextIndex(i, n), n) == i
    ensures NextIndex(PreviousIndex(i, n), n) == i
  {
    if i + 1 < n {
      ModUnique(i + 1, n, 0, i + 1);
    } else {
      ModUnique(i + 1, n, 1, 0);
    }
    if i == 0 {
      ModUnique(n, n, 1, 0);
    } else {
      ModUnique(i, n, 0, i);
    }
  }

  /** `k` presses of next. */
  function Advance(i: nat, n: nat, k: nat): (r: nat)
    requires i < n
    ensures r < n
    decreases k
  {
    if k == 0 then i else NextIndex(Advance(i, n, k - 1), n)
  }

  /** `k` presses of next move `k` places round the deck; `n` presses come
      back to the start. */
  lemma {:induction false} AdvanceWraps(i: nat, n: nat, k: nat)
    requires i < n
    ensures Advance(i, n, k) == (i + k) % n
    decreases k
  {
    if k > 0 {
      AdvanceWraps(i, n, k - 1);
      var j := (i + k - 1) % n;
      assert (j + 1) % n == (i + k) % n by {
        ModSuccessor(i + k - 1, n);
      }
    }
  }

  /** A positive multiple of `n` is at least `n`. */
  lemma MulAtLeast(d: int, n: int)
    requires d >= 1 && n > 0
    ensures d * n >= n
  {
  }

  /** Quotient and remainder are unique: `a == q * n + r` with `0 <= r < n`
      makes `r` the remainder. */
  lemma ModUnique(a: int, n: int, q: int, r: int)
    requires n > 0 && 0 <= r < n && a == q * n + r
    ensures a % n == r
  {
    var q0 := a / n;
    var r0 := a % n;
    assert a == q0 * n + r0;
    var d := q0 - q;
    assert d * n == q0 * n - q * n;
    assert d * n == r - r0;
    if d >= 1 {
      MulAtLeast(d, n);
    } else if d <= -1 {
      MulAtLeast(-d, n);
    }
  }

  /** Adding one commutes with taking the remainder. */
  lemma ModSuccessor(x: nat, n: nat)
    requires n > 0
    ensures (x % n + 1) % n == (x + 1) % n
  {
    var q := x / n;
    var r := x % n;
    assert x == q * n + r;
    if r + 1 < n {
      ModUnique(x + 1, n, q, r + 1);
      ModUnique(r + 1, n, 0, r + 1);
    } else {
      assert x + 1 == (q + 1) * n + 0;
      ModUnique(x + 1, n, q + 1, 0);
      ModUnique(r + 1, n, 1, 0);
    }
  }

  /** The deck's state: how many cards, which one is shown, and whether
      its answer is showing. */
  class Deck {
    var total: nat
    var index: nat
    var showAnswer: bool

    ghost predicate Valid()
      reads this
    {
      if total == 0 then index == 0 else index < total
    }

    /** A new card list resets the deck to its first card, question side. */
    constructor (total: nat)
      ensures Valid() && this.total == total && index == 0 && !showAnswer
    {
      this.total := total;
      index := 0;
      showAnswer := false;
    }

    /** `handleNext`: nothing without cards; otherwise hide the answer and
        move to the next card, from the last back to the first. */
    method Next()
      requires Valid()
      modifies this`index, this`showAnswer
      ensures Valid()
      ensures total == 0 ==> index == old(index) && showAnswer == old(showAnswer)
      ensures total > 0 ==> index == NextIndex(old(index), total) && !showAnswer
    {
      if total == 0 {
        return;
      }
      showAnswer := false;
      index := (index + 1) % total;
    }

    /** `handlePrevious`: nothing without cards; otherwise hide the answer
        and move to the previous card, from the first to the last. */
    method Previous()
      requires Valid()
      modifies this`index, this`showAnswer
      ensures Valid()
      ensures total == 0 ==> index == old(index) && showAnswer == old(showAnswer)
      ensures total > 0 ==> index == PreviousIndex(old(index), total) && !showAnswer
    {
      if total == 0 {
        return;
      }
      showAnswer := false;
      if index == 0 {
        index := total - 1;
      } else {
        index := index - 1;
      }
    }
  }
}
