/** The fill-in-the-blank input (src/components/AnswerInputs/FillInBlank.tsx):
    how many blanks it shows, and the answer array it reports when one blank
    is edited. */
module FillInBlank {
  import opened JsStrings
  import opened ExamTypes

  const Marker: string := "___"

  /** `blankCount`: the length of an array reference answer, otherwise the
      number of `___` markers in the content. */
  function BlankCount(q: Question): (r: nat)
    ensures q.correctAnswer.Arr? ==> r == |q.correctAnswer.items|
    ensures q.correctAnswer.Str? ==> r == Occurrences(q.content, Marker)
  {
    if q.correctAnswer.Arr? then |q.correctAnswer.items|
    else
      SplitCount(q.content, Marker);
      |Split(q.content, Marker)| - 1
  }

  /** For a scalar reference answer there is a blank exactly when the content
      contains a `___` marker, and the content is the pieces between the
      markers joined back by them. */
  lemma ScalarBlanks(q: Question)
    requires q.correctAnswer.Str?
    ensures BlankCount(q) > 0 <==> Contains(q.content, Marker)
    ensures |Split(q.content, Marker)| == BlankCount(q) + 1
    ensures Join(Split(q.content, Marker), Marker) == q.content
  {
    OccurrencesContains(q.content, Marker);
    SplitCount(q.content, Marker);
    JoinSplit(q.content, Marker);
  }

  /** `handleChange(index, inputValue)`: a copy of the current value (or of
      `blankCount` empty strings when there is none) with one position
      overwritten; positions the copy did not reach read as empty. */
  method HandleChange(value: seq<string>, blankCount: nat, index: nat, inputValue: string)
    returns (newValue: seq<string>)
    ensures var base := if |value| > 0 then value else seq(blankCount, _ => "");
      && |newValue| == (if index < |base| then |base| else index + 1)
      && newValue[index] == inputValue
      && forall i :: 0 <= i < |newValue| && i != index ==>
           newValue[i] == (if i < |base| then base[i] else "")
  {
    var base := if |value| > 0 then value else seq(blankCount, _ => "");
    var length := if index < |base| then |base| else index + 1;
    var copy := new string[length](i => if 0 <= i < |base| then base[i] else "");
    copy[index] := inputValue;
    newValue := copy[..];
  }
}
