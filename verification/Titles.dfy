/** `dialog_title` (`dialogs/models.py`): a request on one line, cut to 200 characters. */
module Titles {
  import opened Wrappers

  const TITLE_MAX_LENGTH: nat := 200
  const ELLIPSIS: char := '…'

  /** Which characters besides the blank count as white space stays open. */
  const OtherSpace: char -> bool

  predicate IsSpace(c: char) {
    c == ' ' || OtherSpace(c)
  }

  /** The words of a text with single blanks between them. */
  function OneLine(text: Text): (r: Text)
    ensures r == [] || (!IsSpace(r[0]) && !IsSpace(r[|r| - 1]))
  {
    if text == [] then []
    else
      var before, c := OneLine(text[..|text| - 1]), text[|text| - 1];
      if IsSpace(c) then before
      else if before == [] || (|text| >= 2 && !IsSpace(text[|text| - 2])) then before + [c]
      else before + [' ', c]
  }

  /** The text without the blanks at its end. */
  function Trimmed(text: Text): (r: Text)
    ensures r <= text && (r == [] || !IsSpace(r[|r| - 1]))
    ensures forall i :: |r| <= i < |text| ==> IsSpace(text[i])
  {
    if text != [] && IsSpace(text[|text| - 1]) then Trimmed(text[..|text| - 1]) else text
  }

  function DialogTitle(text: Text): Text {
    var title := OneLine(text);
    if |title| <= TITLE_MAX_LENGTH then title else Trimmed(title[..TITLE_MAX_LENGTH]) + [ELLIPSIS]
  }

  /** Blanks stand alone between words and no other white space is left. */
  ghost predicate Tidy(text: Text) {
    && (forall i :: 0 <= i < |text| && IsSpace(text[i]) ==> text[i] == ' ' && 0 < i < |text| - 1)
    && (forall i, j :: 0 <= i && j == i + 1 < |text| ==> !IsSpace(text[i]) || !IsSpace(text[j]))
  }

  /** `split`: the longest stretches without white space. */
  function Words(text: Text): (r: seq<Text>)
    ensures text != [] && !IsSpace(text[|text| - 1]) ==> r != []
  {
    if text == [] then []
    else
      var n := |text| - 1;
      var before, c := Words(text[..n]), text[n];
      if IsSpace(c) then before
      else if n > 0 && !IsSpace(text[n - 1]) then before[..|before| - 1] + [before[|before| - 1] + [c]]
      else before + [[c]]
  }

  lemma WordsPush(text: Text, c: char)
    ensures IsSpace(c) ==> Words(text + [c]) == Words(text)
    ensures !IsSpace(c) && text != [] && !IsSpace(text[|text| - 1]) ==>
      var before := Words(text); Words(text + [c]) == before[..|before| - 1] + [before[|before| - 1] + [c]]
    ensures !IsSpace(c) && (text == [] || IsSpace(text[|text| - 1])) ==> Words(text + [c]) == Words(text) + [[c]]
  {
    assert (text + [c])[..|text|] == text;
  }

  lemma {:induction false} OneLineIsTidy(text: Text)
    ensures Tidy(OneLine(text))
  {
    if text != [] {
      OneLineIsTidy(text[..|text| - 1]);
    }
  }

  lemma {:induction false} OneLineKeepsWords(text: Text)
    ensures Words(OneLine(text)) == Words(text)
  {
    if text != [] {
      var n := |text| - 1;
      OneLineKeepsWords(text[..n]);
      var before, c := OneLine(text[..n]), text[n];
      if !IsSpace(c) {
        WordsPush(before, ' ');
        WordsPush(before, c);
        WordsPush(before + [' '], c);
        assert before + [' ', c] == before + [' '] + [c];
      }
    }
  }

  /** Joining keeps the words, whatever parted them, and leaves single blanks between them. */
  lemma WordsAreJoined(text: Text)
    ensures Tidy(OneLine(text)) && Words(OneLine(text)) == Words(text)
  {
    OneLineIsTidy(text);
    OneLineKeepsWords(text);
  }

  /** Tidy but for a possible blank at the end. */
  ghost predicate NearlyTidy(text: Text) {
    && (forall i :: 0 <= i < |text| && IsSpace(text[i]) ==> text[i] == ' ' && 0 < i)
    && (forall i, j :: 0 <= i && j == i + 1 < |text| ==> !IsSpace(text[i]) || !IsSpace(text[j]))
  }

  lemma BlankThenWord(text: Text, n: nat)
    requires n == |text| - 1 && n > 0 && NearlyTidy(text) && !IsSpace(text[n]) && IsSpace(text[n - 1])
    requires OneLine(text[..n]) == text[..n][..n - 1]
    ensures OneLine(text) == text
  {
    var before := text[..n - 1];
    assert text[..n][..n - 1] == before;
    assert n > 1 && before != [] && text[n - 1] == ' ';
    assert OneLine(text) == before + [' ', text[n]];
  }

  /** Text that is already tidy stays as it is. */
  lemma {:induction false} TidyStays(text: Text)
    requires NearlyTidy(text)
    ensures OneLine(text) == if text != [] && IsSpace(text[|text| - 1]) then text[..|text| - 1] else text
  {
    if text != [] {
      var n := |text| - 1;
      assert NearlyTidy(text[..n]);
      TidyStays(text[..n]);
      if IsSpace(text[n]) {
        assert n > 0 && !IsSpace(text[n - 1]);
      } else if n > 0 && IsSpace(text[n - 1]) {
        BlankThenWord(text, n);
      } else {
        assert text == text[..n] + [text[n]];
      }
    }
  }

  /**
   * A title is one line of at most 201 characters; up to 200 it shows the whole request, beyond that a beginning of it.
   */
  lemma TitleIsOneShortLine(text: Text)
    ensures |DialogTitle(text)| <= TITLE_MAX_LENGTH + 1
    ensures |OneLine(text)| <= TITLE_MAX_LENGTH ==>
      DialogTitle(text) == OneLine(text) && Words(DialogTitle(text)) == Words(text)
        && DialogTitle(DialogTitle(text)) == DialogTitle(text)
    ensures |OneLine(text)| > TITLE_MAX_LENGTH ==>
      var n := |DialogTitle(text)| - 1;
      0 < n && DialogTitle(text)[n] == ELLIPSIS && DialogTitle(text)[..n] <= OneLine(text)
      && n == if IsSpace(OneLine(text)[TITLE_MAX_LENGTH - 1]) then TITLE_MAX_LENGTH - 1 else TITLE_MAX_LENGTH
  {
    var line := OneLine(text);
    WordsAreJoined(text);
    if |line| <= TITLE_MAX_LENGTH {
      TidyStays(line);
    } else {
      CutLine(line);
    }
  }

  /** At most one blank stands at the place of the cut. */
  lemma CutLine(line: Text)
    requires Tidy(line) && |line| > TITLE_MAX_LENGTH
    ensures var kept := Trimmed(line[..TITLE_MAX_LENGTH]);
      && kept <= line && kept != []
      && |kept| == if IsSpace(line[TITLE_MAX_LENGTH - 1]) then TITLE_MAX_LENGTH - 1 else TITLE_MAX_LENGTH
  {
    var cut := line[..TITLE_MAX_LENGTH];
    if IsSpace(line[TITLE_MAX_LENGTH - 1]) {
      assert !IsSpace(cut[TITLE_MAX_LENGTH - 2]);
    }
    assert Trimmed(cut) <= cut <= line;
  }
}
