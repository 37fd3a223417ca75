/** The reference-answer line of the question card
    (src/components/QuestionCard.tsx): choice labels are shown with the text
    of their option, other answers as they are. */
module QuestionCard {
  import opened Wrappers
  import opened JsStrings
  import opened ExamTypes

  /** Labels are compared trimmed and upper-cased. */
  function LabelKey(s: string): string {
    ToUpper(Trim(s))
  }

  function OptionsOf(q: Question): seq<ChoiceOption> {
    if q.options.Some? then q.options.value else []
  }

  /** Each option as its key and its value. */
  function Keyed(options: seq<ChoiceOption>): (r: seq<(string, string)>)
    ensures |r| == |options|
  {
    seq(|options|, k requires 0 <= k < |options| => (LabelKey(options[k].labelText), options[k].value))
  }

  /** A map built by inserting the pairs in order, so a later pair replaces
      an earlier one with the same key. */
  function LastWins(pairs: seq<(string, string)>): map<string, string> {
    if pairs == [] then map[]
    else
      var last := pairs[|pairs| - 1];
      LastWins(pairs[..|pairs| - 1])[last.0 := last.1]
  }

  /** The keys of the map are exactly the keys of the pairs. */
  lemma {:induction false} LastWinsKeys(pairs: seq<(string, string)>)
    ensures forall key :: key in LastWins(pairs) <==> exists k :: 0 <= k < |pairs| && pairs[k].0 == key
  {
    if pairs != [] {
      var n := |pairs| - 1;
      var init := pairs[..n];
      LastWinsKeys(init);
      forall key | key in LastWins(pairs)
        ensures exists k :: 0 <= k < |pairs| && pairs[k].0 == key
      {
        if key != pairs[n].0 {
          assert key in LastWins(init);
          var k :| 0 <= k < n && init[k].0 == key;
          assert pairs[k] == init[k];
        }
      }
      forall k | 0 <= k < |pairs|
        ensures pairs[k].0 in LastWins(pairs)
      {
        if k < n {
          assert pairs[k] == init[k];
        }
      }
    }
  }

  /** A key maps to the value of the last pair with that key. */
  lemma {:induction false} LastWinsValue(pairs: seq<(string, string)>, key: string)
    requires key in LastWins(pairs)
    ensures exists k ::
      && 0 <= k < |pairs| && pairs[k].0 == key && LastWins(pairs)[key] == pairs[k].1
      && (forall l :: k < l < |pairs| ==> pairs[l].0 != key)
  {
    var n := |pairs| - 1;
    var init := pairs[..n];
    if key != pairs[n].0 {
      LastWinsValue(init, key);
      var k :| 0 <= k < n && init[k].0 == key && LastWins(init)[key] == init[k].1
        && (forall l :: k < l < n ==> init[l].0 != key);
      assert pairs[k] == init[k];
      forall l | k < l < |pairs| ensures pairs[l].0 != key {
        if l < n {
          assert pairs[l] == init[l];
        }
      }
    }
  }

  /** `labelToValue`: option values by key, a later option with the same key
      replacing an earlier one. */
  function LabelToValue(options: seq<ChoiceOption>): map<string, string> {
    LastWins(Keyed(options))
  }

  /** Each option's key is in the map and nothing else is; a key maps to the
      value of the last option with that key. */
  lemma LabelToValueLastWins(options: seq<ChoiceOption>, key: string)
    ensures key in LabelToValue(options) <==> exists k :: 0 <= k < |options| && LabelKey(options[k].labelText) == key
    ensures key in LabelToValue(options) ==> exists k ::
      && 0 <= k < |options| && LabelKey(options[k].labelText) == key
      && LabelToValue(options)[key] == options[k].value
      && (forall l :: k < l < |options| ==> LabelKey(options[l].labelText) != key)
  {
    var pairs := Keyed(options);
    LastWinsKeys(pairs);
    if key in LastWins(pairs) {
      LastWinsValue(pairs, key);
      var k :| && 0 <= k < |pairs| && pairs[k].0 == key && LastWins(pairs)[key] == pairs[k].1
        && (forall l :: k < l < |pairs| ==> pairs[l].0 != key);
      assert pairs[k] == (LabelKey(options[k].labelText), options[k].value);
      forall l | k < l < |options| ensures LabelKey(options[l].labelText) != key {
        assert pairs[l].0 == LabelKey(options[l].labelText);
      }
    } else {
      forall k | 0 <= k < |options| ensures LabelKey(options[k].labelText) != key {
        assert pairs[k].0 == LabelKey(options[k].labelText);
      }
    }
  }

  /** One label: `label. value` when its key has an option with a non-empty
      value, otherwise the label as given. */
  function FormatLabel(labelToValue: map<string, string>, text: string): (r: string)
    ensures StartsWith(r, text)
    ensures r != text <==> LabelKey(text) in labelToValue && labelToValue[LabelKey(text)] != ""
  {
    var key := LabelKey(text);
    if key in labelToValue && labelToValue[key] != "" then
      var r := text + ". " + labelToValue[key];
      assert r[..|text|] == text;
      r
    else text
  }

  /** The formatted labels, one per input label, in order. */
  function FormattedParts(q: Question, labels: seq<string>): (r: seq<string>)
    ensures |r| == |labels|
  {
    var m := LabelToValue(OptionsOf(q));
    seq(|labels|, i requires 0 <= i < |labels| => FormatLabel(m, labels[i]))
  }

  /** `formatChoiceLabels`: the formatted labels joined by `, `. */
  function FormatChoiceLabels(q: Question, labels: seq<string>): string {
    Join(FormattedParts(q, labels), ", ")
  }

  /** Each part is the label followed by the value of the last option whose
      key matches, or the label alone when there is no such option or its
      value is empty. */
  lemma FormattedPartsSpec(q: Question, labels: seq<string>, i: nat)
    requires i < |labels|
    ensures var part := FormattedParts(q, labels)[i];
      var options := OptionsOf(q);
      if exists k :: 0 <= k < |options| && LabelKey(options[k].labelText) == LabelKey(labels[i]) then
        exists k :: && 0 <= k < |options| && LabelKey(options[k].labelText) == LabelKey(labels[i])
          && (forall l :: k < l < |options| ==> LabelKey(options[l].labelText) != LabelKey(labels[i]))
          && part == if options[k].value != "" then labels[i] + ". " + options[k].value else labels[i]
      else part == labels[i]
  {
    var options := OptionsOf(q);
    var key := LabelKey(labels[i]);
    LabelToValueLastWins(options, key);
  }

  /** A question without options shows the labels unchanged. */
  lemma NoOptionsNoChange(q: Question, labels: seq<string>)
    requires OptionsOf(q) == []
    ensures FormatChoiceLabels(q, labels) == Join(labels, ", ")
  {
    assert FormattedParts(q, labels) == labels;
  }

  /** `correctAnswerText`: single-choice and true/false format the
      reference as one label, multiple-choice formats each element (or the
      scalar as one label); other types show an array joined by ` | ` or
      the scalar. */
  function CorrectAnswerText(q: Question): (r: string)
    ensures (q.qtype == SingleChoice || q.qtype == TrueFalse) ==> r == FormatChoiceLabels(q, [Stringify(q.correctAnswer)])
    ensures q.qtype == MultipleChoice && q.correctAnswer.Arr? ==> r == FormatChoiceLabels(q, q.correctAnswer.items)
    ensures q.qtype == MultipleChoice && q.correctAnswer.Str? ==> r == FormatChoiceLabels(q, [q.correctAnswer.s])
    ensures !(q.qtype in {SingleChoice, TrueFalse, MultipleChoice}) ==>
      r == if q.correctAnswer.Arr? then Join(q.correctAnswer.items, " | ") else q.correctAnswer.s
  {
    if q.qtype == SingleChoice || q.qtype == TrueFalse then FormatChoiceLabels(q, [Stringify(q.correctAnswer)])
    else if q.qtype == MultipleChoice then
      var labels := if q.correctAnswer.Arr? then q.correctAnswer.items else [Stringify(q.correctAnswer)];
      FormatChoiceLabels(q, labels)
    else if q.correctAnswer.Arr? then Join(q.correctAnswer.items, " | ")
    else Stringify(q.correctAnswer)
  }

  /** For a choice question the reference text starts with the reference
      label as written. */
  lemma ChoiceTextStartsWithLabel(q: Question)
    requires q.qtype == SingleChoice || q.qtype == TrueFalse
    ensures StartsWith(CorrectAnswerText(q), Stringify(q.correctAnswer))
  {
    assert FormattedParts(q, [Stringify(q.correctAnswer)])[0] == FormatLabel(LabelToValue(OptionsOf(q)), Stringify(q.correctAnswer));
  }
}
