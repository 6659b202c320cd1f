/** The driver: the language model's numbered list of generated questions is
    split into lines, blank lines are dropped, each line loses its numbering,
    and each question is run through the workflow in turn. Printing is not
    modelled; the replies are returned instead. */
module Questions {
  import opened Text
  import opened MainWorkflow

  /** The characters `q.strip("12345. ")` removes at both ends. */
  const NumberingChars: set<char> := {'1', '2', '3', '4', '5', '.', ' '}

  /** `q.strip("12345. ").strip()`, the per-line clean-up as written. */
  function Question(line: string): string
  {
    Strip(Strip(line, NumberingChars), Whitespace)
  }

  /** `not q.strip()`. */
  predicate Blank(line: string)
  {
    Strip(line, Whitespace) == ""
  }

  /** The filter `if q.strip()`. */
  predicate NonBlank(line: string)
  {
    !Blank(line)
  }

  /** A blank line is one made only of whitespace. */
  lemma BlankIff(line: string)
    ensures Blank(line) <==> forall i :: 0 <= i < |line| ==> line[i] in Whitespace
  {
    StripEmptyIff(line, Whitespace);
  }

  /** `[clean(q) for q in lines if keep(q)]`. */
  function ParseLines(lines: seq<string>, keep: string -> bool, clean: string -> string): seq<string>
  {
    if |lines| == 0 then []
    else (if keep(lines[0]) then [clean(lines[0])] else []) + ParseLines(lines[1..], keep, clean)
  }

  /** The question list as `main.py` builds it. */
  function ParseQuestions(text: string): seq<string>
  {
    ParseLines(Split(text, '\n'), NonBlank, Question)
  }

  /** The number of lines the filter keeps. */
  function KeptCount(lines: seq<string>, keep: string -> bool): nat
  {
    if |lines| == 0 then 0
    else (if keep(lines[0]) then 1 else 0) + KeptCount(lines[1..], keep)
  }

  /** One question per kept line, so never more questions than lines. */
  lemma {:induction false} ParseLinesCount(lines: seq<string>, keep: string -> bool, clean: string -> string)
    ensures |ParseLines(lines, keep, clean)| == KeptCount(lines, keep) <= |lines|
  {
    if |lines| > 0 {
      ParseLinesCount(lines[1..], keep, clean);
    }
  }

  /** The positions of the kept lines, in order. */
  function Origins(lines: seq<string>, keep: string -> bool): (idx: seq<nat>)
    ensures forall k :: 0 <= k < |idx| ==> idx[k] < |lines|
  {
    if |lines| == 0 then []
    else (if keep(lines[0]) then [0] else []) + Shift(Origins(lines[1..], keep))
  }

  function Shift(s: seq<nat>): (r: seq<nat>)
    ensures |r| == |s| && forall k :: 0 <= k < |s| ==> r[k] == s[k] + 1
  {
    seq(|s|, k requires 0 <= k < |s| => s[k] + 1)
  }

  /** The k-th question is the cleaned line at the k-th origin, a kept line. */
  lemma {:induction false} OriginsMatch(lines: seq<string>, keep: string -> bool, clean: string -> string)
    ensures var qs, idx := ParseLines(lines, keep, clean), Origins(lines, keep);
      && |idx| == |qs|
      && forall k :: 0 <= k < |idx| ==> keep(lines[idx[k]]) && qs[k] == clean(lines[idx[k]])
  {
    if |lines| > 0 {
      OriginsMatch(lines[1..], keep, clean);
      var qs, idx := ParseLines(lines, keep, clean), Origins(lines, keep);
      var tail, rest := ParseLines(lines[1..], keep, clean), Origins(lines[1..], keep);
      var h := if keep(lines[0]) then 1 else 0;
      assert qs == qs[..h] + tail && idx == idx[..h] + Shift(rest);
      forall k | h <= k < |idx| ensures keep(lines[idx[k]]) && qs[k] == clean(lines[idx[k]]) {
        assert qs[k] == tail[k - h] && idx[k] == rest[k - h] + 1;
        assert lines[1..][rest[k - h]] == lines[idx[k]];
      }
    }
  }

  predicate Increasing(s: seq<nat>)
  {
    forall k, l :: 0 <= k < l < |s| ==> s[k] < s[l]
  }

  /** Shifting an increasing list, with or without a leading `0`, keeps it
      increasing. */
  lemma ShiftIncreasing(head: seq<nat>, rest: seq<nat>)
    requires head == [] || head == [0]
    requires Increasing(rest)
    ensures Increasing(head + Shift(rest))
  {
    var s := head + Shift(rest);
    forall k, l | 0 <= k < l < |s| ensures s[k] < s[l] {
      assert s[l] == rest[l - |head|] + 1;
      if k >= |head| {
        assert s[k] == rest[k - |head|] + 1;
      }
    }
  }

  /** The origins strictly increase: the questions keep the lines' order. */
  lemma {:induction false} OriginsIncreasing(lines: seq<string>, keep: string -> bool)
    ensures Increasing(Origins(lines, keep))
  {
    if |lines| > 0 {
      OriginsIncreasing(lines[1..], keep);
      ShiftIncreasing(if keep(lines[0]) then [0] else [], Origins(lines[1..], keep));
    }
  }

  /** A position `j` in `rest` is `j + 1` after the shift. */
  lemma ShiftHas(head: seq<nat>, rest: seq<nat>, j: nat)
    requires j in rest
    ensures j + 1 in head + Shift(rest)
  {
    var k :| 0 <= k < |rest| && rest[k] == j;
    assert (head + Shift(rest))[|head| + k] == j + 1;
  }

  /** Every kept line is the origin of a question. */
  lemma {:induction false} OriginsComplete(lines: seq<string>, keep: string -> bool)
    ensures forall j :: 0 <= j < |lines| && keep(lines[j]) ==> j in Origins(lines, keep)
  {
    if |lines| > 0 {
      OriginsComplete(lines[1..], keep);
      var head := if keep(lines[0]) then [0] else [];
      var rest := Origins(lines[1..], keep);
      assert Origins(lines, keep) == head + Shift(rest);
      forall j | 1 <= j < |lines| && keep(lines[j]) ensures j in Origins(lines, keep) {
        assert lines[1..][j - 1] == lines[j];
        ShiftHas(head, rest, j - 1);
      }
    }
  }

  /** A question never starts or ends with whitespace and is a contiguous
      piece of its line. */
  lemma QuestionShape(line: string)
    ensures var q := Question(line);
      && (|q| > 0 ==> q[0] !in Whitespace && q[|q| - 1] !in Whitespace)
      && IsSubstring(q, line)
  {
    var m := Strip(line, NumberingChars);
    var lo, hi := StripBounds(m, Whitespace);
    StripIsSubstring(line, NumberingChars);
    StripIsSubstring(m, Whitespace);
    SubstringTransitive(Question(line), m, line);
  }

  /** `qs` is the list cleaned from `lines` at the positions `idx`: one
      question per line that is not blank (see BlankIff), in line order,
      each the clean-up of its line; no other line yields one. */
  ghost predicate QuestionList(lines: seq<string>, qs: seq<string>, idx: seq<nat>)
  {
    && |qs| == |idx| <= |lines|
    && Increasing(idx)
    && (forall k :: 0 <= k < |idx| ==> idx[k] < |lines| && NonBlank(lines[idx[k]]) && qs[k] == Question(lines[idx[k]]))
    && (forall j :: 0 <= j < |lines| && NonBlank(lines[j]) ==> j in idx)
  }

  lemma ParseQuestionsSpec(text: string)
    ensures QuestionList(Split(text, '\n'), ParseQuestions(text), Origins(Split(text, '\n'), NonBlank))
  {
    var lines := Split(text, '\n');
    OriginsMatch(lines, NonBlank, Question);
    OriginsIncreasing(lines, NonBlank);
    OriginsComplete(lines, NonBlank);
    ParseLinesCount(lines, NonBlank, Question);
  }

  /** A line of numbering characters only, not all of them spaces, is kept
      by the filter and becomes the empty question. */
  lemma NumberingOnly(line: string, i: nat)
    requires forall k :: 0 <= k < |line| ==> line[k] in NumberingChars
    requires i < |line| && line[i] !in Whitespace
    ensures NonBlank(line) && Question(line) == ""
  {
    BlankIff(line);
  }

  /** `"5."` is such a line. */
  lemma NumberingOnlyIsEmpty()
    ensures NonBlank("5.") && Question("5.") == ""
  {
    var line := "5.";
    assert line[0] == '5' && line[1] == '.';
    NumberingOnly(line, 0);
  }

  /** A line is cut only at `1`-`5`, `.` and space: `"10. x"` keeps its `0`. */
  lemma TenKeepsZero()
    ensures Question("10. x") == "0. x"
  {
    var q := "0. x";
    assert "10. x" == "1" + (q + "");
    QuestionDropsTail("1", q, "");
  }

  // ---------------------------------------------------------------------
  // Trailing numbering characters
  // ---------------------------------------------------------------------

  /** `q.lstrip("12345. ").strip()`: only the leading numbering goes. */
  function IntendedQuestion(line: string): string
  {
    Strip(TrimStart(line, NumberingChars), Whitespace)
  }

  /** The question list with only the leading numbering removed. */
  function ParseIntendedQuestions(text: string): seq<string>
  {
    ParseLines(Split(text, '\n'), NonBlank, IntendedQuestion)
  }

  /** A question that is a numbering prefix, then text neither starting with a
      numbering character or whitespace nor ending with whitespace. */
  predicate Numbered(numbering: string, q: string)
  {
    && (forall i :: 0 <= i < |numbering| ==> numbering[i] in NumberingChars)
    && |q| > 0 && q[0] !in NumberingChars && q[0] !in Whitespace && q[|q| - 1] !in Whitespace
  }

  lemma {:induction false} TrimStartPrefix(numbering: string, q: string)
    requires Numbered(numbering, q)
    ensures TrimStart(numbering + q, NumberingChars) == q
  {
    if |numbering| > 0 {
      assert (numbering + q)[1..] == numbering[1..] + q;
      TrimStartPrefix(numbering[1..], q);
    } else {
      assert numbering + q == q;
    }
  }

  /** The whitespace strip leaves such a question as it is. */
  lemma StripKeeps(q: string)
    requires |q| > 0 && q[0] !in Whitespace && q[|q| - 1] !in Whitespace
    ensures Strip(q, Whitespace) == q
  {
    assert TrimStart(q, Whitespace) == q;
  }

  /** With only the leading numbering removed, a numbered question comes
      back whole. */
  lemma IntendedKeepsQuestion(numbering: string, q: string)
    requires Numbered(numbering, q)
    ensures IntendedQuestion(numbering + q) == q
  {
    TrimStartPrefix(numbering, q);
    StripKeeps(q);
  }

  /** The two clean-ups agree unless the question ends with a numbering
      character. */
  lemma CleanupsAgree(numbering: string, q: string)
    requires Numbered(numbering, q) && q[|q| - 1] !in NumberingChars
    ensures Question(numbering + q) == IntendedQuestion(numbering + q)
  {
    TrimStartPrefix(numbering, q);
    assert TrimEnd(q, NumberingChars) == q;
  }

  /** `rstrip` removes a tail made only of characters of `cs`, and no more. */
  lemma {:induction false} TrimEndTail(q: string, tail: string, cs: set<char>)
    requires |q| > 0 && q[|q| - 1] !in cs
    requires forall i :: 0 <= i < |tail| ==> tail[i] in cs
    ensures TrimEnd(q + tail, cs) == q
  {
    if |tail| > 0 {
      assert (q + tail)[..|q + tail| - 1] == q + tail[..|tail| - 1];
      TrimEndTail(q, tail[..|tail| - 1], cs);
    } else {
      assert q + tail == q;
    }
  }

  /** As written, a numbered question whose text ends with characters of
      the numbering set loses that whole tail. */
  lemma QuestionDropsTail(numbering: string, q: string, tail: string)
    requires Numbered(numbering, q + tail) && |q| > 0 && q[|q| - 1] !in NumberingChars && q[|q| - 1] !in Whitespace
    requires forall i :: 0 <= i < |tail| ==> tail[i] in NumberingChars
    ensures Question(numbering + (q + tail)) == q
  {
    TrimStartPrefix(numbering, q + tail);
    TrimEndTail(q, tail, NumberingChars);
    StripKeeps(q);
  }

  /** A question ending with a year: the strip as written cuts the final
      `25` off the year. */
  lemma QuestionLosesYear()
    ensures Question("1. Births in 2025") == "Births in 20"
  {
    var q := "Births in 20";
    assert "1. Births in 2025" == "1. " + (q + "25");
    QuestionDropsTail("1. ", q, "25");
  }

  /** The intended clean-up keeps the year. */
  lemma IntendedKeepsYear()
    ensures IntendedQuestion("1. Births in 2025") == "Births in 2025"
  {
    assert "1. Births in 2025" == "1. " + "Births in 2025";
    IntendedKeepsQuestion("1. ", "Births in 2025");
  }

  // ---------------------------------------------------------------------
  // Asking every question
  // ---------------------------------------------------------------------

  /** The reply each question would get on its own. */
  function AllReplies(questions: seq<string>, c: Collaborators): (rs: seq<Reply>)
    ensures |rs| == |questions|
  {
    if |questions| == 0 then [] else [ExpectedReply(questions[0], c)] + AllReplies(questions[1..], c)
  }

  /** The `i`-th reply is the reply to the `i`-th question. */
  lemma {:induction false} AllRepliesAt(questions: seq<string>, c: Collaborators, i: nat)
    requires i < |questions|
    ensures AllReplies(questions, c)[i] == ExpectedReply(questions[i], c)
  {
    if i > 0 {
      AllRepliesAt(questions[1..], c, i - 1);
    }
  }

  /** The replies up to and including the first routing error, which raises
      and ends the run. */
  function UpToFirstError(rs: seq<Reply>): seq<Reply>
  {
    if |rs| == 0 then []
    else if rs[0].NoRouteFor? then [rs[0]]
    else [rs[0]] + UpToFirstError(rs[1..])
  }

  /** The run answers a prefix of the replies; every reply before the last
      is an answer, and it stops early only at a routing error. */
  lemma {:induction false} UpToFirstErrorShape(rs: seq<Reply>)
    ensures var out := UpToFirstError(rs);
      && |out| <= |rs| && out == rs[..|out|]
      && (|rs| > 0 ==> |out| > 0)
      && (forall i :: 0 <= i < |out| - 1 ==> out[i].Reply?)
      && (|out| < |rs| ==> out[|out| - 1].NoRouteFor?)
  {
    if |rs| > 0 && rs[0].Reply? {
      UpToFirstErrorShape(rs[1..]);
      var out, tail := UpToFirstError(rs), UpToFirstError(rs[1..]);
      assert out == [rs[0]] + tail;
      assert rs[..|out|] == [rs[0]] + rs[1..][..|tail|];
    }
  }

  /** When the first `i` replies are answers, the run goes on from `i`. */
  lemma {:induction false} UpToFirstErrorAfter(rs: seq<Reply>, i: nat)
    requires i <= |rs| && forall k :: 0 <= k < i ==> rs[k].Reply?
    ensures UpToFirstError(rs) == rs[..i] + UpToFirstError(rs[i..])
  {
    if i > 0 {
      UpToFirstErrorAfter(rs[1..], i - 1);
      assert rs[1..][..i - 1] == rs[1..i] && rs[1..][i - 1..] == rs[i..];
      assert rs[..i] == [rs[0]] + rs[1..i];
    }
  }

  /** The prefix up to `i`, one element longer. */
  lemma PrefixSnoc(rs: seq<Reply>, i: nat)
    requires i < |rs|
    ensures rs[..i] + [rs[i]] == rs[..i + 1] && rs[i..][0] == rs[i]
  {
  }

  /** The loop of `main.py`: invoke the workflow on each question in turn,
      stopping at the first one the workflow cannot route (the runtime
      raises there, which ends the loop). */
  method AskAll(questions: seq<string>, c: Collaborators) returns (replies: seq<Reply>)
    ensures replies == UpToFirstError(AllReplies(questions, c))
  {
    ghost var all := AllReplies(questions, c);
    replies := [];
    var i := 0;
    while i < |questions|
      invariant 0 <= i <= |questions|
      invariant replies == all[..i] && forall k :: 0 <= k < i ==> all[k].Reply?
    {
      var reply := AnswerQuestion(questions[i], c);
      AllRepliesAt(questions, c, i);
      assert reply == all[i];
      PrefixSnoc(all, i);
      if reply.NoRouteFor? {
        UpToFirstErrorAfter(all, i);
        replies := replies + [reply];
        return;
      }
      replies := replies + [reply];
      i := i + 1;
    }
    UpToFirstErrorAfter(all, i);
    assert all[..i] == all;
  }

  /** `main.py`: parse the generated list with the clean-up of line 12 as
      written and ask each question in turn. */
  method AskGenerated(generated: string, c: Collaborators) returns (questions: seq<string>, replies: seq<Reply>)
    ensures questions == ParseQuestions(generated)
    ensures replies == UpToFirstError(AllReplies(questions, c))
  {
    questions := ParseQuestions(generated);
    replies := AskAll(questions, c);
  }

  /** The same driver with the corrected clean-up, which removes only the
      leading numbering. */
  method AskGeneratedIntended(generated: string, c: Collaborators) returns (questions: seq<string>, replies: seq<Reply>)
    ensures questions == ParseIntendedQuestions(generated)
    ensures replies == UpToFirstError(AllReplies(questions, c))
  {
    questions := ParseIntendedQuestions(generated);
    replies := AskAll(questions, c);
  }
}
