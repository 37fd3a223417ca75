/** The scoring engine of src/utils/grading.ts: empty-answer detection, the
    clamping and score-to-state rules, grading of one question per question
    type, and the exam statistics folded over a paper. */
module Grading {
  import opened Wrappers
  import opened JsStrings
  import opened JsonValue
  import opened ExamTypes

  datatype GradeState = Unanswered | Correct | Partial | Wrong | Pending

  datatype GradeResult = GradeResult(state: GradeState, score: real, maxScore: real)

  // ---------------------------------------------------------------------
  // Normalisation

  /** Labels of choice questions: trimmed and upper-cased. */
  function NormalizeKey(s: string): string {
    ToUpper(Trim(s))
  }

  /** Blanks of fill-in questions: trimmed and lower-cased. */
  function NormalizeText(s: string): string {
    ToLower(Trim(s))
  }

  /** `replace(/\r\n/g, '\n')`: every CR LF pair becomes LF, left to right. */
  function ReplaceCrLf(s: string): string
    decreases |s|
  {
    if |s| >= 2 && s[0] == '\r' && s[1] == '\n' then "\n" + ReplaceCrLf(s[2..])
    else if s == [] then []
    else [s[0]] + ReplaceCrLf(s[1..])
  }

  /** `split('\n')`: the pieces between line feeds; there is always one more
      piece than there are line feeds. */
  function Lines(s: string): (r: seq<string>)
    ensures |r| >= 1
  {
    if s == [] then [""]
    else if s[0] == '\n' then [""] + Lines(s[1..])
    else
      var r := Lines(s[1..]);
      [[s[0]] + r[0]] + r[1..]
  }

  /** Each line with its trailing whitespace removed. */
  function StripLineEnds(lines: seq<string>): (r: seq<string>)
    ensures |r| == |lines|
  {
    seq(|lines|, i requires 0 <= i < |lines| => TrimEnd(lines[i]))
  }

  /** Normalising a label twice is normalising it once: a normalised key is
      already trimmed and upper-case. */
  lemma NormalizeKeyIdempotent(s: string)
    ensures NormalizeKey(NormalizeKey(s)) == NormalizeKey(s)
  {
    var u := NormalizeKey(s);
    TrimmedEnds(s);
    ToUpperFacts(Trim(s));
    TrimFixed(u);
  }

  /** Normalising a blank twice is normalising it once. */
  lemma NormalizeTextIdempotent(s: string)
    ensures NormalizeText(NormalizeText(s)) == NormalizeText(s)
  {
    var u := NormalizeText(s);
    TrimmedEnds(s);
    ToLowerFacts(Trim(s));
    TrimFixed(u);
  }

  /** `normalizeCode`: unify line endings, strip trailing whitespace of every
      line, re-join and trim. */
  function NormalizeCode(code: string): string {
    Trim(Join(StripLineEnds(Lines(ReplaceCrLf(code))), "\n"))
  }

  /** Prepending one character changes the trailing-whitespace-stripped form
      only through that character. */
  lemma {:induction false} TrimEndCons(c: char, a: string)
    ensures TrimEnd([c] + a) ==
      if TrimEnd(a) == [] then (if IsSpace(c) then [] else [c]) else [c] + TrimEnd(a)
    decreases |a|
  {
    if a != [] {
      var x := [c] + a;
      if IsSpace(a[|a| - 1]) {
        assert x[..|x| - 1] == [c] + a[..|a| - 1];
        TrimEndCons(c, a[..|a| - 1]);
      }
    }
  }

  lemma LinesCons(c: char, rest: string)
    ensures Lines([c] + rest) ==
      if c == '\n' then [""] + Lines(rest) else [[c] + Lines(rest)[0]] + Lines(rest)[1..]
  {
    assert ([c] + rest)[1..] == rest;
  }

  /** Two line lists that agree once trailing whitespace is stripped. */
  predicate SameStripped(a: seq<string>, b: seq<string>) {
    |a| == |b| && forall i :: 0 <= i < |a| ==> TrimEnd(a[i]) == TrimEnd(b[i])
  }

  lemma SameStrippedPrepend(x: string, y: string, a: seq<string>, b: seq<string>)
    requires TrimEnd(x) == TrimEnd(y) && SameStripped(a, b)
    ensures SameStripped([x] + a, [y] + b)
  {
    forall i | 0 <= i < |a| + 1 ensures TrimEnd(([x] + a)[i]) == TrimEnd(([y] + b)[i]) {
      if i > 0 {
        assert ([x] + a)[i] == a[i - 1] && ([y] + b)[i] == b[i - 1];
      }
    }
  }

  /** Turning CR LF into LF never changes a line once its trailing whitespace
      is stripped: the removed CR is trailing whitespace of its line. */
  lemma {:induction false} CrLfIsTrailingSpace(s: string)
    ensures SameStripped(Lines(ReplaceCrLf(s)), Lines(s))
    decreases |s|
  {
    if s == [] {
    } else if |s| >= 2 && s[0] == '\r' && s[1] == '\n' {
      var rest := s[2..];
      CrLfIsTrailingSpace(rest);
      assert s == ['\r'] + (['\n'] + rest);
      LinesCons('\n', rest);
      LinesCons('\r', ['\n'] + rest);
      assert ['\r'] + "" == ['\r'];
      assert Lines(s) == [['\r']] + Lines(rest);
      assert ReplaceCrLf(s) == ['\n'] + ReplaceCrLf(rest);
      LinesCons('\n', ReplaceCrLf(rest));
      assert TrimEnd(['\r']) == [];
      SameStrippedPrepend("", ['\r'], Lines(ReplaceCrLf(rest)), Lines(rest));
    } else {
      var rest := s[1..];
      CrLfIsTrailingSpace(rest);
      var a := Lines(ReplaceCrLf(rest));
      var b := Lines(rest);
      assert s == [s[0]] + rest;
      assert ReplaceCrLf(s) == [s[0]] + ReplaceCrLf(rest);
      LinesCons(s[0], rest);
      LinesCons(s[0], ReplaceCrLf(rest));
      if s[0] == '\n' {
        SameStrippedPrepend("", "", a, b);
      } else {
        TrimEndCons(s[0], a[0]);
        TrimEndCons(s[0], b[0]);
        assert SameStripped(a[1..], b[1..]) by {
          forall i | 0 <= i < |a| - 1 ensures TrimEnd(a[1..][i]) == TrimEnd(b[1..][i]) {
            assert a[1..][i] == a[i + 1] && b[1..][i] == b[i + 1];
          }
        }
        SameStrippedPrepend([s[0]] + a[0], [s[0]] + b[0], a[1..], b[1..]);
      }
    }
  }

  /** `normalizeCode` depends only on the lines of the code with their
      trailing whitespace stripped: line-ending style does not matter. */
  lemma NormalizeCodeByLines(code: string)
    ensures NormalizeCode(code) == Trim(Join(StripLineEnds(Lines(code)), "\n"))
  {
    CrLfIsTrailingSpace(code);
    SameStrippedLineEnds(Lines(ReplaceCrLf(code)), Lines(code));
  }

  /** Appending one character extends the last line, or starts a new empty
      line when it is a line feed. */
  lemma {:induction false} LinesSnoc(s: string, c: char)
    ensures var l := Lines(s);
      Lines(s + [c]) == if c == '\n' then l + [""] else l[..|l| - 1] + [l[|l| - 1] + [c]]
    decreases |s|
  {
    if s == [] {
      assert s + [c] == [c] + s;
      LinesCons(c, s);
    } else {
      var t := s[1..];
      assert s == [s[0]] + t;
      assert s + [c] == [s[0]] + (t + [c]);
      LinesSnoc(t, c);
      LinesCons(s[0], t);
      LinesCons(s[0], t + [c]);
      var l := Lines(t);
      if s[0] != '\n' && c != '\n' && |l| == 1 {
        assert l[..0] + [l[0] + [c]] == [l[0] + [c]];
        assert [s[0]] + (l[0] + [c]) == ([s[0]] + l[0]) + [c];
      }
    }
  }

  /** The line form of the code, before the final trim. */
  function LineForm(s: string): string {
    Join(StripLineEnds(Lines(s)), "\n")
  }

  lemma StripLineEndsCons(x: string, l: seq<string>)
    ensures StripLineEnds([x] + l) == [TrimEnd(x)] + StripLineEnds(l)
  {
    assert forall k :: 0 < k < |l| + 1 ==> ([x] + l)[k] == l[k - 1];
  }

  lemma StripLineEndsSnoc(l: seq<string>, x: string)
    ensures StripLineEnds(l + [x]) == StripLineEnds(l) + [TrimEnd(x)]
  {
  }

  /** A whitespace character in front of the code does not change its
      trimmed line form: it either starts an empty line or is cut by `trim`. */
  lemma LineFormSpaceCons(c: char, s: string)
    requires IsSpace(c)
    ensures Trim(LineForm([c] + s)) == Trim(LineForm(s))
  {
    var l := Lines(s);
    var sl := StripLineEnds(l);
    LinesCons(c, s);
    if c == '\n' {
      StripLineEndsCons("", l);
      JoinEmptyHead(sl, "\n");
      TrimSpaceCons('\n', Join(sl, "\n"));
    } else {
      var tail := StripLineEnds(l[1..]);
      assert l == [l[0]] + l[1..];
      StripLineEndsCons(l[0], l[1..]);
      StripLineEndsCons([c] + l[0], l[1..]);
      TrimEndCons(c, l[0]);
      if TrimEnd(l[0]) != [] {
        assert sl[1..] == tail;
        JoinConsHead(c, sl, "\n");
        TrimSpaceCons(c, Join(sl, "\n"));
      }
    }
  }

  /** A whitespace character after the code does not change its trimmed line
      form: it is cut from the last line, or ends an empty last line. */
  lemma LineFormSpaceSnoc(s: string, c: char)
    requires IsSpace(c)
    ensures Trim(LineForm(s + [c])) == Trim(LineForm(s))
  {
    var l := Lines(s);
    var n := |l|;
    var sl := StripLineEnds(l);
    LinesSnoc(s, c);
    if c == '\n' {
      StripLineEndsSnoc(l, "");
      JoinEmptyLast(sl, "\n");
      TrimSpaceSnoc(Join(sl, "\n"), '\n');
    } else {
      assert l == l[..n - 1] + [l[n - 1]];
      StripLineEndsSnoc(l[..n - 1], l[n - 1]);
      StripLineEndsSnoc(l[..n - 1], l[n - 1] + [c]);
      TrimEndSnoc(l[n - 1], c);
    }
  }

  lemma NormalizeCodeSpaceCons(c: char, s: string)
    requires IsSpace(c)
    ensures NormalizeCode([c] + s) == NormalizeCode(s)
  {
    NormalizeCodeByLines([c] + s);
    NormalizeCodeByLines(s);
    LineFormSpaceCons(c, s);
  }

  lemma NormalizeCodeSpaceSnoc(s: string, c: char)
    requires IsSpace(c)
    ensures NormalizeCode(s + [c]) == NormalizeCode(s)
  {
    NormalizeCodeByLines(s + [c]);
    NormalizeCodeByLines(s);
    LineFormSpaceSnoc(s, c);
  }

  lemma {:induction false} NormalizeCodeSpacePrefix(w: string, s: string)
    requires AllSpace(w)
    ensures NormalizeCode(w + s) == NormalizeCode(s)
    decreases |w|
  {
    if w != [] {
      var rest := w[1..] + s;
      assert w + s == [w[0]] + rest;
      NormalizeCodeSpacePrefix(w[1..], s);
      NormalizeCodeSpaceCons(w[0], rest);
    } else {
      assert w + s == s;
    }
  }

  lemma {:induction false} NormalizeCodeSpaceSuffix(s: string, w: string)
    requires AllSpace(w)
    ensures NormalizeCode(s + w) == NormalizeCode(s)
    decreases |w|
  {
    if w != [] {
      var n := |w|;
      var init := s + w[..n - 1];
      assert s + w == init + [w[n - 1]];
      NormalizeCodeSpaceSuffix(s, w[..n - 1]);
      NormalizeCodeSpaceSnoc(init, w[n - 1]);
    } else {
      assert s + w == s;
    }
  }

  /** `normalizeCode` ends with `trim`: whitespace before or after the code,
      line breaks included, does not change the normalised form. */
  lemma NormalizeCodeTrimEnds(w: string, s: string)
    requires AllSpace(w)
    ensures NormalizeCode(w + s) == NormalizeCode(s) && NormalizeCode(s + w) == NormalizeCode(s)
  {
    NormalizeCodeSpacePrefix(w, s);
    NormalizeCodeSpaceSuffix(s, w);
  }

  lemma SameStrippedLineEnds(a: seq<string>, b: seq<string>)
    requires SameStripped(a, b)
    ensures StripLineEnds(a) == StripLineEnds(b)
  {
    forall i | 0 <= i < |a| ensures StripLineEnds(a)[i] == StripLineEnds(b)[i] {
    }
  }

  // ---------------------------------------------------------------------
  // Empty answers

  /** `isEmptyAnswer`: absent, a blank string, or an array of blank strings
      (blank: no character other than whitespace; see `EmptyAnswerByTrim`). */
  predicate IsEmptyAnswer(a: Option<AnswerValue>) {
    match a
    case None => true
    case Some(Str(s)) => !HasNonSpace(s)
    case Some(Arr(items)) => forall i :: 0 <= i < |items| ==> !HasNonSpace(items[i])
  }

  /** A string answer is empty when it trims to the empty string; an array
      answer when every element does (so also the empty array). */
  lemma EmptyAnswerByTrim(a: AnswerValue)
    ensures a.Str? ==> (IsEmptyAnswer(Some(a)) <==> Trim(a.s) == "")
    ensures a.Arr? ==> (IsEmptyAnswer(Some(a)) <==> forall i :: 0 <= i < |a.items| ==> Trim(a.items[i]) == "")
  {
    if a.Str? {
      HasNonSpaceIff(a.s);
    } else {
      forall i | 0 <= i < |a.items| {
        HasNonSpaceIff(a.items[i]);
      }
    }
  }

  function AnswerOf(ua: Option<UserAnswer>): Option<AnswerValue> {
    if ua.Some? then Some(ua.value.answer) else None
  }

  function AiScoreOf(ua: Option<UserAnswer>): Option<Num> {
    if ua.Some? && ua.value.aiGrade.Some? then Some(ua.value.aiGrade.value.score) else None
  }

  // ---------------------------------------------------------------------
  // Rounding, clamping and classification

  /** `Math.round(x * 100) / 100`; `Math.round` rounds halves up. */
  function Round2(x: real): real {
    ((x * 100.0 + 0.5).Floor as real) / 100.0
  }

  /** A whole number of hundredths, the values `Round2` produces. */
  predicate WholeCents(x: real) {
    (x * 100.0).Floor as real == x * 100.0
  }

  lemma Round2Facts(x: real)
    ensures WholeCents(Round2(x))
    ensures WholeCents(x) ==> Round2(x) == x
    ensures x >= 0.0 ==> Round2(x) >= 0.0
  {
    var n := (x * 100.0 + 0.5).Floor;
    assert Round2(x) * 100.0 == n as real;
    if WholeCents(x) {
      var m := (x * 100.0).Floor;
      assert (m as real + 0.5).Floor == m;
    }
  }

  lemma Round2Monotonic(x: real, y: real)
    requires x <= y
    ensures Round2(x) <= Round2(y)
  {
    var a := (x * 100.0 + 0.5).Floor;
    var b := (y * 100.0 + 0.5).Floor;
    assert x * 100.0 <= y * 100.0;
    assert (a as real) < (b as real) + 1.0;
    assert a <= b;
    assert (a as real) / 100.0 <= (b as real) / 100.0;
  }

  lemma WholeCentsSum(x: real, y: real)
    requires WholeCents(x) && WholeCents(y)
    ensures WholeCents(x + y)
  {
    var a := (x * 100.0).Floor;
    var b := (y * 100.0).Floor;
    assert (x + y) * 100.0 == (a + b) as real;
  }

  /** `clampScore` of src/utils/grading.ts. */
  function ClampScore(score: Num, maxScore: real): real {
    if score.NonFinite? then 0.0
    else if score.value < 0.0 then 0.0
    else if score.value > maxScore then maxScore
    else Round2(score.value)
  }

  /** For a maximum that is a non-negative whole number of hundredths, a clamped
      score lies in [0, maxScore], is itself a whole number of hundredths, and
      clamping it again changes nothing. */
  lemma ClampScoreRange(score: Num, maxScore: real)
    requires maxScore >= 0.0 && WholeCents(maxScore)
    ensures 0.0 <= ClampScore(score, maxScore) <= maxScore
    ensures WholeCents(ClampScore(score, maxScore))
    ensures ClampScore(Finite(ClampScore(score, maxScore)), maxScore) == ClampScore(score, maxScore)
  {
    Round2Facts(maxScore);
    Round2Facts(0.0);
    if score.Finite? && 0.0 <= score.value <= maxScore {
      Round2Facts(score.value);
      Round2Monotonic(score.value, maxScore);
      Round2Facts(Round2(score.value));
    }
  }

  /** The upper bound needs the maximum to be whole hundredths: a score equal to
      a maximum of 0.005 is rounded up past it. */
  lemma ClampScoreOvershoot()
    ensures ClampScore(Finite(0.005), 0.005) == 0.01 > 0.005
  {
    assert (0.005 * 100.0 + 0.5).Floor == 1;
  }

  /** `scoreToState`. For a positive maximum and a score in range, the state
      is `Correct` exactly at the maximum, `Wrong` exactly at zero and
      `Partial` strictly between. */
  function ScoreToState(score: real, maxScore: real): (r: GradeState)
    ensures r in {Correct, Wrong, Partial}
    ensures maxScore > 0.0 && 0.0 <= score <= maxScore ==>
      (r == Correct <==> score == maxScore) && (r == Wrong <==> score == 0.0)
      && (r == Partial <==> 0.0 < score < maxScore)
  {
    if maxScore <= 0.0 then Correct
    else if score <= 0.0 then Wrong
    else if score >= maxScore then Correct
    else Partial
  }

  // ---------------------------------------------------------------------
  // Per-type grading

  /** Open-ended types: the AI grade's score, clamped and classified, or
      `Pending` while there is none. */
  function GradeDeferred(ua: Option<UserAnswer>, maxScore: real): (r: GradeResult)
    ensures r.maxScore == maxScore
    ensures r.state != Unanswered
    ensures r.state == Pending <==> AiScoreOf(ua).None?
    ensures r.state == Pending ==> r.score == 0.0
  {
    match AiScoreOf(ua)
    case Some(n) =>
      var score := ClampScore(n, maxScore);
      GradeResult(ScoreToState(score, maxScore), score, maxScore)
    case None => GradeResult(Pending, 0.0, maxScore)
  }

  /** single_choice and true_false: exact match after trim and upper-casing. */
  function GradeExact(answer: AnswerValue, correct: AnswerValue, maxScore: real): (r: GradeResult)
    ensures r.maxScore == maxScore && r.state in {Correct, Wrong}
  {
    var isCorrect := NormalizeKey(Stringify(answer)) == NormalizeKey(Stringify(correct));
    GradeResult(if isCorrect then Correct else Wrong, if isCorrect then maxScore else 0.0, maxScore)
  }

  /** Normalised keys, in order. */
  function NormalizeKeys(xs: seq<string>): (r: seq<string>)
    ensures |r| == |xs|
  {
    seq(|xs|, i requires 0 <= i < |xs| => NormalizeKey(xs[i]))
  }

  /** `filter((v) => v !== '')`, order kept. */
  function NonEmpty(xs: seq<string>): (r: seq<string>)
    ensures |r| <= |xs|
    ensures forall x :: x in r <==> x in xs && x != ""
  {
    if xs == [] then []
    else if xs[|xs| - 1] == "" then NonEmpty(xs[..|xs| - 1])
    else NonEmpty(xs[..|xs| - 1]) + [xs[|xs| - 1]]
  }

  predicate Distinct(xs: seq<string>) {
    forall i, j :: 0 <= i < j < |xs| ==> xs[i] != xs[j]
  }

  /** `Array.from(new Set(xs))`: first occurrences, in order. */
  function Dedup(xs: seq<string>): (r: seq<string>)
    ensures Distinct(r)
    ensures forall x :: x in r <==> x in xs
  {
    if xs == [] then []
    else
      var d := Dedup(xs[..|xs| - 1]);
      if xs[|xs| - 1] in d then d else d + [xs[|xs| - 1]]
  }

  /** The correct labels of a multiple-choice question, normalised (an array
      reference, or the stringified scalar as a one-element list). Duplicates
      are kept. */
  function CorrectLabels(correct: AnswerValue): seq<string> {
    NormalizeKeys(if correct.Arr? then correct.items else [Stringify(correct)])
  }

  /** The distinct non-blank normalised labels the candidate selected. */
  function SelectedLabels(answer: AnswerValue): seq<string> {
    Dedup(NonEmpty(NormalizeKeys(if answer.Arr? then answer.items else [answer.s])))
  }

  /** `xs.filter(v => ys.includes(v)).length` */
  function CountIn(xs: seq<string>, ys: seq<string>): (r: nat)
    ensures r <= |xs|
    ensures (forall x :: x in xs ==> x in ys) ==> r == |xs|
  {
    if xs == [] then 0
    else CountIn(xs[..|xs| - 1], ys) + (if xs[|xs| - 1] in ys then 1 else 0)
  }

  /** `Math.round((k / n) * maxScore * 100) / 100`: credit for `k` of `n`
      parts. */
  function Proportional(k: nat, n: nat, maxScore: real): real
    requires n > 0
  {
    Round2((k as real / n as real) * maxScore)
  }

  /** Some selected label is not among the correct ones. */
  predicate HasWrongPick(selected: seq<string>, labels: seq<string>) {
    exists v :: v in selected && v !in labels
  }

  /** multiple_choice: any selected label outside the correct list zeroes the
      question; otherwise the score is proportional to the labels selected. */
  function GradeMultipleChoice(answer: AnswerValue, correct: AnswerValue, maxScore: real): (r: GradeResult)
    ensures r.maxScore == maxScore && r.state != Pending
  {
    var correctArr := CorrectLabels(correct);
    var uniqueUser := SelectedLabels(answer);
    if HasWrongPick(uniqueUser, correctArr) then GradeResult(Wrong, 0.0, maxScore)
    else
      var correctSelected := CountIn(uniqueUser, correctArr);
      if correctSelected <= 0 then GradeResult(Unanswered, 0.0, maxScore)
      else
        assert uniqueUser[0] in correctArr;
        var score := Proportional(correctSelected, |correctArr|, maxScore);
        GradeResult(if correctSelected == |correctArr| then Correct else Partial, score, maxScore)
  }

  /** The reference blanks: an array, or the stringified scalar as one blank. */
  function CorrectBlanks(correct: AnswerValue): seq<string> {
    if correct.Arr? then correct.items else [Stringify(correct)]
  }

  /** The submitted blanks: an array, or the scalar as one blank. */
  function UserBlanks(answer: AnswerValue): seq<string> {
    if answer.Arr? then answer.items else [answer.s]
  }

  /** `userArr[i] ?? ''` */
  function BlankAt(xs: seq<string>, i: nat): string {
    if i < |xs| then xs[i] else ""
  }

  /** Blank `i` counts when the candidate's value is non-blank and equal to the
      reference after trim and lower-casing. */
  predicate BlankMatches(user: seq<string>, correct: seq<string>, i: nat)
    requires i < |correct|
  {
    var u := NormalizeText(BlankAt(user, i));
    u != "" && u == NormalizeText(correct[i])
  }

  /** Which blanks match, position by position. */
  function BlankResults(user: seq<string>, correct: seq<string>): (r: seq<bool>)
    ensures |r| == |correct|
    ensures forall i :: 0 <= i < |correct| ==> (r[i] <==> BlankMatches(user, correct, i))
  {
    seq(|correct|, i requires 0 <= i < |correct| => BlankMatches(user, correct, i))
  }

  /** The number of `true` entries. */
  function CountTrue(bs: seq<bool>): nat {
    if bs == [] then 0 else CountTrue(bs[..|bs| - 1]) + (if bs[|bs| - 1] then 1 else 0)
  }

  lemma CountTrueSnoc(bs: seq<bool>, i: nat)
    requires i < |bs|
    ensures CountTrue(bs[..i + 1]) == CountTrue(bs[..i]) + (if bs[i] then 1 else 0)
  {
    assert bs[..i + 1][..i] == bs[..i];
  }

  /** At most all entries are `true`, and all are exactly when each one is. */
  lemma {:induction false} CountTrueBounds(bs: seq<bool>)
    ensures CountTrue(bs) <= |bs|
    ensures CountTrue(bs) == |bs| <==> forall i :: 0 <= i < |bs| ==> bs[i]
  {
    if bs != [] {
      var init := bs[..|bs| - 1];
      CountTrueBounds(init);
      if CountTrue(bs) == |bs| {
        forall i | 0 <= i < |bs| ensures bs[i] {
          if i < |init| {
            assert bs[i] == init[i];
          }
        }
      }
      if forall i :: 0 <= i < |bs| ==> bs[i] {
        forall i | 0 <= i < |init| ensures init[i] {
          assert init[i] == bs[i];
        }
      }
    }
  }

  /** fill_in_blank: proportional credit per matching blank. */
  function GradeFillInBlank(answer: AnswerValue, correct: AnswerValue, maxScore: real): (r: GradeResult)
    ensures r.maxScore == maxScore && r.state in {Correct, Partial, Wrong}
  {
    var correctArr := CorrectBlanks(correct);
    var expected := |correctArr|;
    var correctCount := CountTrue(BlankResults(UserBlanks(answer), correctArr));
    var score := if expected > 0 then Proportional(correctCount, expected, maxScore) else 0.0;
    GradeResult(if correctCount == expected then Correct else if score > 0.0 then Partial else Wrong, score, maxScore)
  }

  /** `String(question.correctAnswer ?? '').trim()` */
  function ReferenceCode(correct: AnswerValue): string {
    Trim(Stringify(correct))
  }

  /** coding: without a reference it is graded like an open-ended question;
      with one, full marks exactly when the normalised code is equal. */
  function GradeCoding(ua: Option<UserAnswer>, answer: AnswerValue, correct: AnswerValue, maxScore: real): (r: GradeResult)
    ensures r.maxScore == maxScore && r.state != Unanswered
    ensures ReferenceCode(correct) != "" ==>
      (r.state == Correct && r.score == maxScore) || (r.state == Wrong && r.score == 0.0)
    ensures r.state == Pending ==> r.score == 0.0 && ReferenceCode(correct) == "" && AiScoreOf(ua).None?
  {
    var correctCode := ReferenceCode(correct);
    if correctCode == "" then GradeDeferred(ua, maxScore)
    else
      var isCorrect := NormalizeCode(Stringify(answer)) == NormalizeCode(correctCode);
      GradeResult(if isCorrect then Correct else Wrong, if isCorrect then maxScore else 0.0, maxScore)
  }

  /** The types whose score comes from the AI: short answers, calculations,
      and coding questions without a reference solution. */
  predicate IsAiDeferred(q: Question) {
    q.qtype == ShortAnswer || q.qtype == Calculation
    || (q.qtype == Coding && ReferenceCode(q.correctAnswer) == "")
  }

  /** `gradeQuestion`. */
  function GradeQuestion(q: Question, ua: Option<UserAnswer>): (r: GradeResult)
    ensures r.maxScore == q.score
    ensures IsEmptyAnswer(AnswerOf(ua)) ==> r.state == Unanswered && r.score == 0.0
    ensures r.state == Pending ==> r.score == 0.0 && IsAiDeferred(q) && AiScoreOf(ua).None?
  {
    var maxScore := q.score;
    var answer := AnswerOf(ua);
    if IsEmptyAnswer(answer) then GradeResult(Unanswered, 0.0, maxScore)
    else
      match q.qtype
      case ShortAnswer => GradeDeferred(ua, maxScore)
      case Calculation => GradeDeferred(ua, maxScore)
      case SingleChoice => GradeExact(answer.value, q.correctAnswer, maxScore)
      case TrueFalse => GradeExact(answer.value, q.correctAnswer, maxScore)
      case MultipleChoice => GradeMultipleChoice(answer.value, q.correctAnswer, maxScore)
      case FillInBlank => GradeFillInBlank(answer.value, q.correctAnswer, maxScore)
      case Coding => GradeCoding(ua, answer.value, q.correctAnswer, maxScore)
  }

  // ---------------------------------------------------------------------
  // The fill_in_blank loop

  /** The counting loop of the fill_in_blank branch. */
  method CountCorrectBlanks(userArr: seq<string>, correctArr: seq<string>) returns (correctCount: nat)
    ensures correctCount == CountTrue(BlankResults(userArr, correctArr))
    ensures correctCount <= |correctArr|
  {
    ghost var results := BlankResults(userArr, correctArr);
    var expected := |correctArr|;
    correctCount := 0;
    for i := 0 to expected
      invariant correctCount == CountTrue(results[..i])
    {
      var userVal := NormalizeText(BlankAt(userArr, i));
      var correctVal := NormalizeText(correctArr[i]);
      CountTrueSnoc(results, i);
      assert results[i] == (userVal != "" && userVal == correctVal);
      if userVal != "" && userVal == correctVal {
        correctCount := correctCount + 1;
      }
    }
    assert results[..expected] == results;
    CountTrueBounds(results);
  }

  /** The rule that grades a non-empty answer, by question type. */
  lemma GradeQuestionByType(q: Question, ua: Option<UserAnswer>)
    requires !IsEmptyAnswer(AnswerOf(ua))
    ensures var answer := ua.value.answer;
      var r := GradeQuestion(q, ua);
      && (q.qtype == ShortAnswer || q.qtype == Calculation ==> r == GradeDeferred(ua, q.score))
      && (q.qtype == SingleChoice || q.qtype == TrueFalse ==> r == GradeExact(answer, q.correctAnswer, q.score))
      && (q.qtype == MultipleChoice ==> r == GradeMultipleChoice(answer, q.correctAnswer, q.score))
      && (q.qtype == FillInBlank ==> r == GradeFillInBlank(answer, q.correctAnswer, q.score))
      && (q.qtype == Coding ==> r == GradeCoding(ua, answer, q.correctAnswer, q.score))
  {
    assert AnswerOf(ua) == Some(ua.value.answer);
  }

  /** `gradeQuestion` on a fill_in_blank question, with its counting loop. */
  method GradeFillInBlankQuestion(q: Question, ua: Option<UserAnswer>) returns (r: GradeResult)
    requires q.qtype == FillInBlank
    ensures r == GradeQuestion(q, ua)
  {
    var maxScore := q.score;
    var answer := AnswerOf(ua);
    if IsEmptyAnswer(answer) {
      return GradeResult(Unanswered, 0.0, maxScore);
    }
    var correctArr := CorrectBlanks(q.correctAnswer);
    var expected := |correctArr|;
    var correctCount := CountCorrectBlanks(UserBlanks(answer.value), correctArr);
    var score := if expected > 0 then Proportional(correctCount, expected, maxScore) else 0.0;
    var state := if correctCount == expected then Correct else if score > 0.0 then Partial else Wrong;
    r := GradeResult(state, score, maxScore);
    GradeQuestionByType(q, ua);
  }

  // ---------------------------------------------------------------------
  // Properties of gradeQuestion

  lemma FractionOfMax(k: nat, n: nat, m: real)
    requires 0 < n && k <= n && m >= 0.0
    ensures 0.0 <= (k as real / n as real) * m <= m
  {
    var f := k as real / n as real;
    assert 0.0 <= f <= 1.0;
    assert f * m <= 1.0 * m;
  }

  /** Proportional credit for a maximum in whole hundredths stays within
      [0, maximum] and is the whole maximum for every part. */
  lemma ProportionalRange(k: nat, n: nat, m: real)
    requires 0 < n && k <= n && m >= 0.0 && WholeCents(m)
    ensures 0.0 <= Proportional(k, n, m) <= m
    ensures k == n ==> Proportional(k, n, m) == m
  {
    var raw := (k as real / n as real) * m;
    FractionOfMax(k, n, m);
    Round2Monotonic(raw, m);
    Round2Facts(raw);
    Round2Facts(m);
    if k == n {
      assert k as real / n as real == 1.0;
    }
  }

  /** A list of distinct labels all drawn from `ys` is no longer than `ys`. */
  lemma {:induction false} DistinctWithinLength(xs: seq<string>, ys: seq<string>)
    requires Distinct(xs) && forall x :: x in xs ==> x in ys
    ensures |xs| <= |ys|
    decreases |xs|
  {
    if xs != [] {
      var e := xs[|xs| - 1];
      assert e in xs;
      var k :| 0 <= k < |ys| && ys[k] == e;
      var ys' := ys[..k] + ys[k + 1..];
      var xs' := xs[..|xs| - 1];
      forall x | x in xs' ensures x in ys' {
        var i :| 0 <= i < |xs'| && xs'[i] == x;
        assert xs[i] == x && x != e;
        assert x in ys;
        var j :| 0 <= j < |ys| && ys[j] == x;
        if j < k {
          assert ys'[j] == x;
        } else {
          assert ys'[j - 1] == x;
        }
      }
      DistinctWithinLength(xs', ys');
    }
  }

  /** A non-empty answer always selects at least one label. */
  lemma SelectedLabelsNonEmpty(answer: AnswerValue)
    requires !IsEmptyAnswer(Some(answer))
    ensures |SelectedLabels(answer)| > 0
  {
    var raw := if answer.Arr? then answer.items else [answer.s];
    var i :| 0 <= i < |raw| && HasNonSpace(raw[i]);
    HasNonSpaceIff(raw[i]);
    var keys := NormalizeKeys(raw);
    assert |keys[i]| == |Trim(raw[i])|;
    assert keys[i] in keys && keys[i] != "";
    assert keys[i] in NonEmpty(keys);
    assert keys[i] in SelectedLabels(answer);
  }

  /** multiple_choice: one selected label outside the correct list gives
      `Wrong` with 0; otherwise the score is the proportion of distinct
      selected labels to the length of the correct list, never above the
      maximum, and the state is `Correct` exactly when the two counts agree and
      `Partial` otherwise. */
  lemma MultipleChoiceGrade(answer: AnswerValue, correct: AnswerValue, maxScore: real)
    requires !IsEmptyAnswer(Some(answer))
    ensures var r := GradeMultipleChoice(answer, correct, maxScore);
      var selected := SelectedLabels(answer);
      var labels := CorrectLabels(correct);
      if HasWrongPick(selected, labels) then r.state == Wrong && r.score == 0.0
      else
        && 0 < |selected| <= |labels|
        && r.score == Proportional(|selected|, |labels|, maxScore)
        && (r.state == Correct <==> |selected| == |labels|)
        && (r.state == Partial <==> |selected| < |labels|)
        && (maxScore >= 0.0 && WholeCents(maxScore) ==> 0.0 <= r.score <= maxScore)
  {
    var selected := SelectedLabels(answer);
    var labels := CorrectLabels(correct);
    SelectedLabelsNonEmpty(answer);
    if !HasWrongPick(selected, labels) {
      DistinctWithinLength(selected, labels);
      if maxScore >= 0.0 && WholeCents(maxScore) {
        ProportionalRange(|selected|, |labels|, maxScore);
      }
    }
  }

  /** fill_in_blank: `Correct` exactly when every reference blank is matched
      (so an empty reference array gives `Correct` with 0), the score is the
      matched proportion of the maximum and never exceeds it, and an
      unmatched question is `Partial` or `Wrong` according to its score. */
  lemma FillInBlankGrade(answer: AnswerValue, correct: AnswerValue, maxScore: real)
    ensures var r := GradeFillInBlank(answer, correct, maxScore);
      var user := UserBlanks(answer);
      var blanks := CorrectBlanks(correct);
      var matched := CountTrue(BlankResults(user, blanks));
      && matched <= |blanks|
      && (r.state == Correct <==> forall i :: 0 <= i < |blanks| ==> BlankMatches(user, blanks, i))
      && (|blanks| == 0 ==> r.state == Correct && r.score == 0.0)
      && (|blanks| > 0 ==> r.score == Proportional(matched, |blanks|, maxScore))
      && (r.state != Correct ==> (r.state == Partial <==> r.score > 0.0))
      && (maxScore >= 0.0 && WholeCents(maxScore) ==> 0.0 <= r.score <= maxScore)
  {
    var user := UserBlanks(answer);
    var blanks := CorrectBlanks(correct);
    var results := BlankResults(user, blanks);
    CountTrueBounds(results);
    var matched := CountTrue(results);
    Round2Facts(0.0);
    if |blanks| > 0 && maxScore >= 0.0 && WholeCents(maxScore) {
      ProportionalRange(matched, |blanks|, maxScore);
    }
  }

  /** single_choice and true_false: never partial; full marks exactly when
      the trimmed, upper-cased answer equals the trimmed, upper-cased
      reference, so answers differing only in case or surrounding whitespace
      grade alike. */
  lemma ExactChoiceGrade(a: AnswerValue, b: AnswerValue, correct: AnswerValue, maxScore: real)
    ensures var r := GradeExact(a, correct, maxScore);
      var same := NormalizeKey(Stringify(a)) == NormalizeKey(Stringify(correct));
      && (r.state == Correct <==> same) && (r.state == Wrong <==> !same)
      && r.score == (if same then maxScore else 0.0)
    ensures NormalizeKey(Stringify(a)) == NormalizeKey(Stringify(b))
      ==> GradeExact(a, correct, maxScore) == GradeExact(b, correct, maxScore)
  {
  }

  /** The AI-deferred types: with an AI score the result is the clamped score
      classified by `ScoreToState`; without one it is `Pending` with 0. */
  lemma AiDeferredGrade(q: Question, ua: Option<UserAnswer>)
    requires IsAiDeferred(q) && !IsEmptyAnswer(AnswerOf(ua))
    ensures var r := GradeQuestion(q, ua);
      match AiScoreOf(ua)
      case Some(n) =>
        r.score == ClampScore(n, q.score) && r.state == ScoreToState(ClampScore(n, q.score), q.score)
      case None => r.state == Pending && r.score == 0.0
  {
    GradeQuestionByType(q, ua);
  }

  /** coding with a reference solution: two submissions whose lines agree once
      trailing whitespace is stripped (so also CR LF against LF) grade alike. */
  lemma CodingGradesAlike(ua: Option<UserAnswer>, ub: Option<UserAnswer>, a: AnswerValue, b: AnswerValue,
                          correct: AnswerValue, maxScore: real)
    requires ReferenceCode(correct) != ""
    requires StripLineEnds(Lines(Stringify(a))) == StripLineEnds(Lines(Stringify(b)))
    ensures GradeCoding(ua, a, correct, maxScore) == GradeCoding(ub, b, correct, maxScore)
  {
    SameCodeSameNormal(Stringify(a), Stringify(b));
  }

  /** coding with a reference solution: white space and blank lines around a
      submission do not change its grade. */
  lemma CodingIgnoresSurroundingSpace(ua: Option<UserAnswer>, ub: Option<UserAnswer>, w: string, s: string,
                                      correct: AnswerValue, maxScore: real)
    requires ReferenceCode(correct) != "" && AllSpace(w)
    ensures GradeCoding(ua, Str(w + s), correct, maxScore) == GradeCoding(ub, Str(s), correct, maxScore)
    ensures GradeCoding(ua, Str(s + w), correct, maxScore) == GradeCoding(ub, Str(s), correct, maxScore)
  {
    NormalizeCodeTrimEnds(w, s);
  }

  lemma SameCodeSameNormal(sa: string, sb: string)
    requires StripLineEnds(Lines(sa)) == StripLineEnds(Lines(sb))
    ensures NormalizeCode(sa) == NormalizeCode(sb)
  {
    NormalizeCodeByLines(sa);
    NormalizeCodeByLines(sb);
  }

  /** A non-empty answer is never reported `Unanswered`: the defensive branch
      of multiple_choice cannot be reached. */
  lemma AnsweredNeverUnanswered(q: Question, ua: Option<UserAnswer>)
    requires !IsEmptyAnswer(AnswerOf(ua))
    ensures GradeQuestion(q, ua).state != Unanswered
  {
    GradeQuestionByType(q, ua);
    if q.qtype == MultipleChoice {
      var selected := SelectedLabels(ua.value.answer);
      var labels := CorrectLabels(q.correctAnswer);
      MultipleChoiceGrade(ua.value.answer, q.correctAnswer, q.score);
      if !HasWrongPick(selected, labels) {
        assert 0 < |selected| <= |labels|;
      }
    }
  }

  /** For a non-negative maximum in whole hundredths, every grade lies in
      [0, maxScore]. */
  lemma GradeScoreRange(q: Question, ua: Option<UserAnswer>)
    requires q.score >= 0.0 && WholeCents(q.score)
    ensures 0.0 <= GradeQuestion(q, ua).score <= q.score
  {
    if !IsEmptyAnswer(AnswerOf(ua)) {
      GradeQuestionByType(q, ua);
      match q.qtype
      case MultipleChoice => MultipleChoiceGrade(ua.value.answer, q.correctAnswer, q.score);
      case FillInBlank => FillInBlankGrade(ua.value.answer, q.correctAnswer, q.score);
      case _ =>
        if AiScoreOf(ua).Some? {
          ClampScoreRange(AiScoreOf(ua).value, q.score);
        }
    }
  }

  // ---------------------------------------------------------------------
  // calculateExamStats

  datatype ExamStats = ExamStats(
    totalQuestions: nat,
    answeredQuestions: nat,
    currentScore: real,
    autoTotalScore: real,
    pendingQuestions: nat)

  /** `answers[id]` */
  function Lookup(answers: map<string, UserAnswer>, id: string): Option<UserAnswer> {
    if id in answers then Some(answers[id]) else None
  }

  function GradeOf(q: Question, answers: map<string, UserAnswer>): GradeResult {
    GradeQuestion(q, Lookup(answers, q.id))
  }

  /** The sum of the grade scores. */
  function ScoreSum(qs: seq<Question>, answers: map<string, UserAnswer>): real {
    if qs == [] then 0.0
    else ScoreSum(qs[..|qs| - 1], answers) + GradeOf(qs[|qs| - 1], answers).score
  }

  /** The sum of the maxima of the questions that are not pending. */
  function AutoTotal(qs: seq<Question>, answers: map<string, UserAnswer>): real {
    if qs == [] then 0.0
    else
      AutoTotal(qs[..|qs| - 1], answers)
      + (if GradeOf(qs[|qs| - 1], answers).state == Pending then 0.0 else qs[|qs| - 1].score)
  }

  /** The number of pending questions. */
  function PendingCount(qs: seq<Question>, answers: map<string, UserAnswer>): nat {
    if qs == [] then 0
    else
      PendingCount(qs[..|qs| - 1], answers)
      + (if GradeOf(qs[|qs| - 1], answers).state == Pending then 1 else 0)
  }

  /** The number of questions that are not pending. */
  function ScoredCount(qs: seq<Question>, answers: map<string, UserAnswer>): nat {
    if qs == [] then 0
    else
      ScoredCount(qs[..|qs| - 1], answers)
      + (if GradeOf(qs[|qs| - 1], answers).state == Pending then 0 else 1)
  }

  /** Every question is either pending or counted towards the automatic
      total: `pendingQuestions` and the scored questions add up to
      `totalQuestions`. */
  lemma {:induction false} PendingPartition(qs: seq<Question>, answers: map<string, UserAnswer>)
    ensures PendingCount(qs, answers) + ScoredCount(qs, answers) == |qs|
  {
    if qs != [] {
      PendingPartition(qs[..|qs| - 1], answers);
    }
  }

  /** The answers in the map, paper questions or not, that are not empty. */
  function AnsweredCount(answers: map<string, UserAnswer>): nat {
    |set k | k in answers && !IsEmptyAnswer(Some(answers[k].answer))|
  }

  lemma SubsetCardinality(a: set<string>, b: set<string>)
    requires a <= b
    ensures |a| <= |b|
  {
    if a != {} {
      var x :| x in a;
      SubsetCardinality(a - {x}, b - {x});
    }
  }

  /** At most every entry is answered, and exactly every entry when none is
      empty. */
  lemma AnsweredCountBounds(answers: map<string, UserAnswer>)
    ensures AnsweredCount(answers) <= |answers|
    ensures (forall k :: k in answers ==> !IsEmptyAnswer(Some(answers[k].answer)))
      ==> AnsweredCount(answers) == |answers|
  {
    var s := set k | k in answers && !IsEmptyAnswer(Some(answers[k].answer));
    SubsetCardinality(s, answers.Keys);
    assert |answers.Keys| == |answers|;
    if forall k :: k in answers ==> !IsEmptyAnswer(Some(answers[k].answer)) {
      assert s == answers.Keys;
    }
  }

  /** `calculateExamStats`: one pass over the questions of the paper. */
  method CalculateExamStats(paper: ExamPaper, answers: map<string, UserAnswer>) returns (stats: ExamStats)
    ensures var qs := AllQuestions(paper.sections);
      && stats.totalQuestions == |qs|
      && stats.answeredQuestions == AnsweredCount(answers)
      && stats.currentScore == Round2(ScoreSum(qs, answers))
      && stats.autoTotalScore == AutoTotal(qs, answers)
      && stats.pendingQuestions == PendingCount(qs, answers)
  {
    var questions := AllQuestions(paper.sections);
    var currentScore := 0.0;
    var autoTotalScore := 0.0;
    var pendingQuestions := 0;
    for i := 0 to |questions|
      invariant currentScore == ScoreSum(questions[..i], answers)
      invariant autoTotalScore == AutoTotal(questions[..i], answers)
      invariant pendingQuestions == PendingCount(questions[..i], answers)
    {
      var question := questions[i];
      var grade := GradeQuestion(question, Lookup(answers, question.id));
      assert questions[..i + 1][..i] == questions[..i];
      if grade.state == Pending {
        pendingQuestions := pendingQuestions + 1;
      } else {
        autoTotalScore := autoTotalScore + question.score;
      }
      currentScore := currentScore + grade.score;
    }
    assert questions[..|questions|] == questions;
    var answeredQuestions := AnsweredCount(answers);
    stats := ExamStats(|questions|, answeredQuestions, Round2(currentScore), autoTotalScore, pendingQuestions);
  }

  /** With every maximum a non-negative whole number of hundredths: the raw
      score lies between 0 and the total of the non-pending maxima (pending
      questions score 0), that total is whole hundredths, and at most every
      question is pending. */
  lemma StatsBounds(qs: seq<Question>, answers: map<string, UserAnswer>)
    requires forall q :: q in qs ==> q.score >= 0.0 && WholeCents(q.score)
    ensures 0.0 <= ScoreSum(qs, answers) <= AutoTotal(qs, answers)
    ensures WholeCents(AutoTotal(qs, answers))
    ensures PendingCount(qs, answers) <= |qs|
    ensures PendingCount(qs, answers) == |qs| ==> AutoTotal(qs, answers) == 0.0 && ScoreSum(qs, answers) == 0.0
  {
    SumBounds(qs, answers);
    AllPendingScoresNothing(qs, answers);
  }

  /** The sum and total halves of `StatsBounds`. */
  lemma {:induction false} SumBounds(qs: seq<Question>, answers: map<string, UserAnswer>)
    requires forall q :: q in qs ==> q.score >= 0.0 && WholeCents(q.score)
    ensures 0.0 <= ScoreSum(qs, answers) <= AutoTotal(qs, answers)
    ensures WholeCents(AutoTotal(qs, answers))
  {
    if qs == [] {
      assert 0.0 * 100.0 == 0.0;
    } else {
      var init := qs[..|qs| - 1];
      var last := qs[|qs| - 1];
      assert forall q :: q in init ==> q in qs;
      SumBounds(init, answers);
      var g := GradeOf(last, answers);
      GradeScoreRange(last, Lookup(answers, last.id));
      SumStep(ScoreSum(init, answers), AutoTotal(init, answers), g.score, last.score, g.state == Pending);
    }
  }

  /** One step of `SumBounds`, on the numbers alone. */
  lemma SumStep(sum: real, total: real, score: real, maxScore: real, pending: bool)
    requires 0.0 <= sum <= total && WholeCents(total)
    requires 0.0 <= score <= maxScore && WholeCents(maxScore)
    requires pending ==> score == 0.0
    ensures 0.0 <= sum + score <= total + (if pending then 0.0 else maxScore)
    ensures WholeCents(total + (if pending then 0.0 else maxScore))
  {
    if pending {
      assert total + 0.0 == total;
    } else {
      WholeCentsSum(total, maxScore);
    }
  }

  /** The pending-count half of `StatsBounds`: pending questions score 0. */
  lemma {:induction false} AllPendingScoresNothing(qs: seq<Question>, answers: map<string, UserAnswer>)
    ensures PendingCount(qs, answers) <= |qs|
    ensures PendingCount(qs, answers) == |qs| ==> AutoTotal(qs, answers) == 0.0 && ScoreSum(qs, answers) == 0.0
  {
    if qs != [] {
      AllPendingScoresNothing(qs[..|qs| - 1], answers);
    }
  }

  /** The reported current score never exceeds the reported total of
      auto-gradable maxima, and is never negative. */
  lemma CurrentScoreWithinAutoTotal(paper: ExamPaper, answers: map<string, UserAnswer>)
    requires forall q :: q in AllQuestions(paper.sections) ==> q.score >= 0.0 && WholeCents(q.score)
    ensures var qs := AllQuestions(paper.sections);
      0.0 <= Round2(ScoreSum(qs, answers)) <= AutoTotal(qs, answers)
  {
    var qs := AllQuestions(paper.sections);
    StatsBounds(qs, answers);
    Round2Monotonic(ScoreSum(qs, answers), AutoTotal(qs, answers));
    Round2Facts(AutoTotal(qs, answers));
    Round2Facts(ScoreSum(qs, answers));
  }
}
