/** The graded entries the AI grading server sends and the client reads back
    (`AiGradeResult` in src/utils/aiGradingApi.ts), and the drop rules both
    sides apply to the entries of a `results` array. */
module GradeWire {
  import opened Wrappers
  import opened JsStrings
  import opened JsonValue

  /** `{ questionId, score, feedback? }` */
  datatype GradeEntry = GradeEntry(questionId: string, score: real, feedback: Option<string>)

  /** An entry is kept when it is an object whose `questionId` is a string
      that does not trim to empty and whose `score` is a finite number;
      every other entry is skipped. */
  predicate Usable(item: Json) {
    IsRecord(item) && IsNonEmptyString(Get(item, QuestionId)) && IsFiniteNumber(Get(item, Score))
  }

  /** `typeof item.feedback === 'string' ? item.feedback : undefined` */
  function FeedbackOf(item: Json): (r: Option<string>)
    ensures r.Some? <==> IsString(Get(item, Feedback))
  {
    var f := Get(item, Feedback);
    if IsString(f) then Some(f.value.s) else None
  }

  /** The entry read from a usable item, score as given. */
  function EntryOf(item: Json): (r: GradeEntry)
    requires Usable(item)
    ensures Get(item, QuestionId) == Some(JStr(r.questionId))
    ensures Get(item, Score) == Some(JNum(Finite(r.score)))
    ensures r.feedback == FeedbackOf(item)
  {
    GradeEntry(Get(item, QuestionId).value.s, Get(item, Score).value.n.value, FeedbackOf(item))
  }

  /** The client's filter: the usable entries, in order, scores unchanged. */
  function Kept(items: seq<Json>): (r: seq<GradeEntry>)
    ensures |r| <= |items|
  {
    if items == [] then []
    else
      var last := items[|items| - 1];
      Kept(items[..|items| - 1]) + (if Usable(last) then [EntryOf(last)] else [])
  }

  /** The object `JSON.stringify` writes for an entry; an undefined
      `feedback` is left out. */
  function Encode(e: GradeEntry): (r: Json)
    ensures IsRecord(r)
  {
    var fields := map[QuestionId := JStr(e.questionId), Score := JNum(Finite(e.score))];
    JObj(if e.feedback.Some? then fields[Feedback := JStr(e.feedback.value)] else fields)
  }

  function EncodeAll(es: seq<GradeEntry>): (r: seq<Json>)
    ensures |r| == |es|
  {
    seq(|es|, k requires 0 <= k < |es| => Encode(es[k]))
  }

  /** Reading an encoded entry gives the entry back, provided its id is not
      blank; an entry with a blank id is dropped. */
  lemma EncodeRoundTrip(e: GradeEntry)
    ensures Usable(Encode(e)) <==> HasNonSpace(e.questionId)
    ensures Usable(Encode(e)) ==> EntryOf(Encode(e)) == e
  {
    var r := Encode(e);
    assert Get(r, QuestionId) == Some(JStr(e.questionId));
    assert Get(r, Score) == Some(JNum(Finite(e.score)));
    if e.feedback.Some? {
      assert Get(r, Feedback) == Some(JStr(e.feedback.value));
    } else {
      assert Get(r, Feedback) == None;
    }
  }

  /** A list of entries with non-blank ids survives being sent and filtered
      again unchanged. */
  lemma {:induction false} KeptEncodeAll(es: seq<GradeEntry>)
    requires forall k :: 0 <= k < |es| ==> HasNonSpace(es[k].questionId)
    ensures Kept(EncodeAll(es)) == es
  {
    if es != [] {
      var init := es[..|es| - 1];
      assert EncodeAll(es)[..|es| - 1] == EncodeAll(init);
      KeptEncodeAll(init);
      EncodeRoundTrip(es[|es| - 1]);
    }
  }

  /** Every kept entry has a non-blank id. */
  lemma {:induction false} KeptIdsNonBlank(items: seq<Json>)
    ensures forall k :: 0 <= k < |Kept(items)| ==> HasNonSpace(Kept(items)[k].questionId)
  {
    if items != [] {
      KeptIdsNonBlank(items[..|items| - 1]);
    }
  }

  /** Filtering keeps exactly the usable items: each kept entry comes from a
      usable item, and every usable item is kept. */
  lemma {:induction false} KeptExactly(items: seq<Json>)
    ensures forall e :: e in Kept(items) ==> exists k :: 0 <= k < |items| && Usable(items[k]) && e == EntryOf(items[k])
    ensures forall k :: 0 <= k < |items| && Usable(items[k]) ==> EntryOf(items[k]) in Kept(items)
  {
    if items != [] {
      var n := |items| - 1;
      var init := items[..n];
      KeptExactly(init);
      forall e | e in Kept(items)
        ensures exists k :: 0 <= k < |items| && Usable(items[k]) && e == EntryOf(items[k])
      {
        if e in Kept(init) {
          var k :| 0 <= k < |init| && Usable(init[k]) && e == EntryOf(init[k]);
          assert items[k] == init[k];
        } else {
          assert Usable(items[n]) && e == EntryOf(items[n]);
        }
      }
      forall k | 0 <= k < |items| && Usable(items[k]) ensures EntryOf(items[k]) in Kept(items) {
        if k < n {
          assert init[k] == items[k];
        }
      }
    }
  }
}
