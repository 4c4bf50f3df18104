// The string side of NTImageBlockTextEffect: splitting the text into lines and words,
// trimming, and the greedy closest-to-target row breaker, as pure functions with
// the lemmas that say what the breaker preserves.
module TextLayout {
  import opened Geometry

  /** Foundation's CharacterSet.newlines: U+000A to U+000D, U+0085, U+2028, U+2029. */
  const Newlines: set<char> :=
    {'\n', '\U{000B}', '\U{000C}', '\r', '\U{0085}', '\U{2028}', '\U{2029}'}

  /** CharacterSet.whitespacesAndNewlines: tab, the newlines and Unicode category Z*. */
  const WhitespacesAndNewlines: set<char> :=
    Newlines + {'\t', ' ', '\U{00A0}', '\U{1680}',
                '\U{2000}', '\U{2001}', '\U{2002}', '\U{2003}', '\U{2004}', '\U{2005}',
                '\U{2006}', '\U{2007}', '\U{2008}', '\U{2009}', '\U{200A}',
                '\U{202F}', '\U{205F}', '\U{3000}'}

  /** The separator of `components(separatedBy: " ")`. */
  const Space: set<char> := {' '}

  predicate Avoids(s: string, seps: set<char>)
  {
    forall k :: 0 <= k < |s| ==> s[k] !in seps
  }

  // ---------------------------------------------------------------------------
  // components(separatedBy:)

  /** Splits `s` at every character of `seps`; n separators give n + 1 components. */
  function Split(s: string, seps: set<char>): (parts: seq<string>)
    ensures |parts| >= 1
    ensures forall i :: 0 <= i < |parts| ==> Avoids(parts[i], seps)
  {
    if |s| == 0 then [""]
    else
      var rest := Split(s[1..], seps);
      if s[0] in seps then [""] + rest
      else [[s[0]] + rest[0]] + rest[1..]
  }

  /** Re-inserts a single separator between components. */
  function Join(parts: seq<string>, sep: char): string
    requires |parts| >= 1
  {
    if |parts| == 1 then parts[0] else parts[0] + [sep] + Join(parts[1..], sep)
  }

  /** Splitting on one character loses nothing: joining the components gives back the string. */
  lemma {:induction false} JoinSplit(s: string, sep: char)
    ensures Join(Split(s, {sep}), sep) == s
  {
    if |s| > 0 {
      JoinSplit(s[1..], sep);
      var rest := Split(s[1..], {sep});
      if s[0] != sep {
        if |rest| == 1 {
          assert Split(s, {sep}) == [[s[0]] + rest[0]];
        } else {
          var parts := Split(s, {sep});
          assert parts[1..] == rest[1..];
          assert Join(parts, sep) == [s[0]] + rest[0] + [sep] + Join(rest[1..], sep);
          assert Join(rest, sep) == rest[0] + [sep] + Join(rest[1..], sep);
        }
        assert s == [s[0]] + s[1..];
      } else {
        assert Split(s, {sep})[1..] == rest;
        assert s == [s[0]] + s[1..];
      }
    }
  }

  /** Splitting distributes over a separator occurrence. */
  lemma {:induction false} SplitAt(a: string, c: char, b: string, seps: set<char>)
    requires c in seps
    ensures Split(a + [c] + b, seps) == Split(a, seps) + Split(b, seps)
  {
    if |a| == 0 {
      assert a + [c] + b == [c] + b;
      assert ([c] + b)[1..] == b;
    } else {
      var s := a + [c] + b;
      assert s[0] == a[0] && s[1..] == a[1..] + [c] + b;
      SplitAt(a[1..], c, b, seps);
    }
  }

  /** A string without separators is a single component. */
  lemma {:induction false} SplitAvoiding(s: string, seps: set<char>)
    requires Avoids(s, seps)
    ensures Split(s, seps) == [s]
  {
    if |s| > 0 {
      SplitAvoiding(s[1..], seps);
      assert s == [s[0]] + s[1..];
    }
  }

  // ---------------------------------------------------------------------------
  // trimmingCharacters(in:)

  /** Number of leading characters of `s` that are in `ws`. */
  function LeadLength(s: string, ws: set<char>): (n: nat)
    ensures n <= |s|
    ensures forall k :: 0 <= k < n ==> s[k] in ws
    ensures n < |s| ==> s[n] !in ws
  {
    if |s| > 0 && s[0] in ws then 1 + LeadLength(s[1..], ws) else 0
  }

  /** Number of trailing characters of `s` that are in `ws`. */
  function TrailLength(s: string, ws: set<char>): (n: nat)
    ensures n <= |s|
    ensures forall k :: |s| - n <= k < |s| ==> s[k] in ws
    ensures n < |s| ==> s[|s| - n - 1] !in ws
  {
    if |s| > 0 && s[|s| - 1] in ws then 1 + TrailLength(s[..|s| - 1], ws) else 0
  }

  /**
   * Drops the leading and trailing characters in `ws`: the result is the infix of `s`
   * that starts and ends outside `ws`, and everything dropped is in `ws`.
   */
  function Trim(s: string, ws: set<char>): (r: string)
    ensures var lead := LeadLength(s, ws);
      && lead + |r| <= |s|
      && r == s[lead..lead + |r|]
      && (forall k :: lead + |r| <= k < |s| ==> s[k] in ws)
    ensures r == "" || (r[0] !in ws && r[|r| - 1] !in ws)
    ensures r == "" <==> (forall k :: 0 <= k < |s| ==> s[k] in ws)
  {
    var lead := LeadLength(s, ws);
    var rest := s[lead..];
    var trail := TrailLength(rest, ws);
    assert forall k :: lead + |rest| - trail <= k < |s| ==> s[k] == rest[k - lead];
    rest[..|rest| - trail]
  }

  // ---------------------------------------------------------------------------
  // Words

  function NonEmpty(parts: seq<string>): (r: seq<string>)
    ensures |r| <= |parts|
  {
    if |parts| == 0 then []
    else (if parts[0] == "" then [] else [parts[0]]) + NonEmpty(parts[1..])
  }

  lemma {:induction false} NonEmptyAppend(a: seq<string>, b: seq<string>)
    ensures NonEmpty(a + b) == NonEmpty(a) + NonEmpty(b)
  {
    if |a| > 0 {
      assert (a + b)[1..] == a[1..] + b;
      NonEmptyAppend(a[1..], b);
    } else {
      assert a + b == b;
    }
  }

  /** The non-empty space-separated words of `s`, in order. */
  function Words(s: string): seq<string>
  {
    NonEmpty(Split(s, Space))
  }

  /** Joining two strings with one space concatenates their words. */
  lemma WordsJoin(a: string, b: string)
    ensures Words(a + " " + b) == Words(a) + Words(b)
  {
    assert a + " " + b == a + [' '] + b;
    SplitAt(a, ' ', b, Space);
    NonEmptyAppend(Split(a, Space), Split(b, Space));
  }

  /** `stringB` after a word is appended: a space first unless it is still empty. */
  function Grow(acc: string, w: string): (b: string)
    ensures |b| == (if acc == "" then 0 else |acc| + 1) + |w|
  {
    (if acc != "" then acc + " " else "") + w
  }

  lemma WordsGrow(acc: string, w: string)
    requires Avoids(w, Space)
    ensures Words(Grow(acc, w)) == Words(acc) + NonEmpty([w])
  {
    SplitAvoiding(w, Space);
    if acc == "" {
      assert Grow(acc, w) == w;
      assert Split("", Space) == [""];
    } else {
      WordsJoin(acc, w);
    }
  }

  /** The words of a list of rows, read row after row. */
  function RowWords(rows: seq<string>): seq<string>
  {
    if |rows| == 0 then [] else Words(rows[0]) + RowWords(rows[1..])
  }

  lemma {:induction false} RowWordsAppend(a: seq<string>, b: seq<string>)
    ensures RowWords(a + b) == RowWords(a) + RowWords(b)
  {
    if |a| > 0 {
      assert (a + b)[1..] == a[1..] + b;
      RowWordsAppend(a[1..], b);
    } else {
      assert a + b == b;
    }
  }

  lemma RowWordsSingle(r: string)
    ensures RowWords([r]) == Words(r)
  {
    assert [r][1..] == [];
  }

  // ---------------------------------------------------------------------------
  // The row breaker of generateTextRows(fromString:withTarget:)

  /**
   * A word on which the loop makes no progress: with an empty row so far, the word
   * alone overflows the target and the empty candidate is strictly closer to it, so the
   * loop appends "" and revisits the same word with the same (empty) state.
   */
  predicate Stalls(w: string, t: int)
  {
    |w| > t && Abs(0 - t) < Abs(|w| - t)
  }

  /** For a non-negative target a word stalls exactly when it is longer than twice the target. */
  lemma StallsIff(w: string, t: int)
    ensures Stalls(w, t) <==> (if t >= 0 then |w| > 2 * t else |w| > 0)
  {
  }

  predicate NoStall(words: seq<string>, t: int)
  {
    forall k :: 0 <= k < |words| ==> !Stalls(words[k], t)
  }

  predicate SpaceFree(words: seq<string>)
  {
    forall k :: 0 <= k < |words| ==> Avoids(words[k], Space)
  }

  /** A row under construction is empty or within the target. */
  predicate AccOk(acc: string, t: int)
  {
    acc == "" || |acc| <= t
  }

  /** What one iteration does to the rows: the rows it emits, the new row so far, and whether it moves to the next word. */
  datatype Step = Step(emitted: seq<string>, acc: string, advance: bool)

  /**
   * One iteration with row so far `acc` (stringA) and word `w`. Without overflow the word
   * joins the row. On overflow exactly one row is emitted, the candidate closer to the
   * target (ties go to the longer one); the word is revisited only when the shorter
   * candidate was strictly closer.
   */
  function BreakStep(acc: string, w: string, t: int): (r: Step)
    ensures var b := Grow(acc, w);
      && (|b| <= t ==> r == Step([], b, true))
      && (|b| > t ==>
            && r.acc == ""
            && r.emitted == (if r.advance then [b] else [acc])
            && (!r.advance <==> Abs(|acc| - t) < Abs(|b| - t))
            && Abs(|r.emitted[0]| - t) <= Abs(|acc| - t)
            && Abs(|r.emitted[0]| - t) <= Abs(|b| - t))
    ensures AccOk(r.acc, t)
  {
    var b := Grow(acc, w);
    if |b| > t then
      if Abs(|acc| - t) < Abs(|b| - t) then Step([acc], "", false)
      else Step([b], "", true)
    else Step([], b, true)
  }

  /** With an empty row so far, a stalling word emits "" and leaves the state as it was. */
  lemma StallRepeats(w: string, t: int)
    requires Stalls(w, t)
    ensures BreakStep("", w, t) == Step([""], "", false)
  {
  }

  /** The emitted rows and the trailing remainder (stringB) when the word loop ends. */
  datatype Packed = Packed(rows: seq<string>, rest: string)

  /** The word loop from word `i` on, with row so far `acc` and rows `rows` emitted already. */
  function Pack(words: seq<string>, i: nat, acc: string, rows: seq<string>, t: int): Packed
    requires i <= |words|
    requires NoStall(words, t)
    decreases |words| - i, if acc == "" then 0 else 1
  {
    if i == |words| then Packed(rows, acc)
    else
      var st := BreakStep(acc, words[i], t);
      Pack(words, if st.advance then i + 1 else i, st.acc, rows + st.emitted, t)
  }

  /** The trailing merge: a short remainder joins the last row after one space. */
  function Finish(p: Packed, t: int, threshold: real): (rows: seq<string>)
    ensures p.rest == "" ==> rows == p.rows
    ensures p.rest != "" && (|p.rest| as real) < (t as real) * threshold && |p.rows| > 0 ==>
              rows == p.rows[..|p.rows| - 1] + [p.rows[|p.rows| - 1] + " " + p.rest]
    ensures p.rest != "" && !((|p.rest| as real) < (t as real) * threshold && |p.rows| > 0) ==>
              rows == p.rows + [p.rest]
  {
    if p.rest != "" then
      if (|p.rest| as real) < (t as real) * threshold && |p.rows| > 0 then
        p.rows[..|p.rows| - 1] + [p.rows[|p.rows| - 1] + " " + p.rest]
      else p.rows + [p.rest]
    else p.rows
  }

  /** The rows of one line: generateTextRows(fromString:withTarget:). */
  function BreakLine(line: string, t: int, threshold: real): seq<string>
    requires NoStall(Split(line, Space), t)
  {
    Finish(Pack(Split(line, Space), 0, "", [], t), t, threshold)
  }

  /** One iteration keeps the words: emitted rows, then the new row so far, then the word if it is revisited. */
  lemma StepWords(acc: string, w: string, t: int)
    requires Avoids(w, Space)
    ensures var st := BreakStep(acc, w, t);
      RowWords(st.emitted) + Words(st.acc) + (if st.advance then [] else NonEmpty([w]))
        == Words(acc) + NonEmpty([w])
  {
    var st := BreakStep(acc, w, t);
    WordsGrow(acc, w);
    assert Words("") == [] by { assert Split("", Space) == [""]; }
    if st.emitted != [] {
      RowWordsSingle(st.emitted[0]);
    }
  }

  lemma Regroup<T>(x: seq<T>, e: seq<T>, a: seq<T>, w: seq<T>, r: seq<T>, p: seq<T>, q: seq<T>)
    requires e + a + w == p + q
    ensures x + e + a + (w + r) == x + p + (q + r)
  {
    calc {
      x + e + a + (w + r);
      x + (e + a + w) + r;
      x + (p + q) + r;
      x + p + (q + r);
    }
  }

  /** The word loop keeps every word: emitted rows, then the remainder, hold the words read so far. */
  lemma {:induction false} PackWords(words: seq<string>, i: nat, acc: string, rows: seq<string>, t: int)
    requires i <= |words| && NoStall(words, t) && SpaceFree(words)
    ensures var p := Pack(words, i, acc, rows, t);
      RowWords(p.rows) + Words(p.rest) == RowWords(rows) + Words(acc) + NonEmpty(words[i..])
    decreases |words| - i, if acc == "" then 0 else 1
  {
    if i == |words| {
      assert words[i..] == [];
    } else {
      var w := words[i];
      var st := BreakStep(acc, w, t);
      var i' := if st.advance then i + 1 else i;
      var rows' := rows + st.emitted;
      assert Pack(words, i, acc, rows, t) == Pack(words, i', st.acc, rows', t);
      PackWords(words, i', st.acc, rows', t);
      StepWords(acc, w, t);
      RowWordsAppend(rows, st.emitted);
      assert words[i..] == [w] + words[i + 1..];
      NonEmptyAppend([w], words[i + 1..]);
      var E, A := RowWords(st.emitted), Words(st.acc);
      var W := if st.advance then [] else NonEmpty([w]);
      var R := NonEmpty(words[i + 1..]);
      assert NonEmpty(words[i'..]) == W + R;
      assert E + A + W == Words(acc) + NonEmpty([w]);
      assert NonEmpty(words[i..]) == NonEmpty([w]) + R;
      var X := RowWords(rows);
      assert RowWords(rows') == X + E;
      Regroup(X, E, A, W, R, Words(acc), NonEmpty([w]));
    }
  }

  /** One iteration emits only non-empty rows at most twice the target long. */
  lemma StepRowBounds(acc: string, w: string, t: int)
    requires t >= 0 && AccOk(acc, t) && !Stalls(w, t)
    ensures var st := BreakStep(acc, w, t);
      forall k :: 0 <= k < |st.emitted| ==> 0 < |st.emitted[k]| <= 2 * t
  {
  }

  /**
   * For a non-negative target every row the loop emits is non-empty and at most twice
   * the target long, the rows already emitted stay, and the remainder is within the target.
   */
  lemma {:induction false} PackRows(words: seq<string>, i: nat, acc: string, rows: seq<string>, t: int)
    requires i <= |words| && NoStall(words, t) && t >= 0 && AccOk(acc, t)
    ensures var p := Pack(words, i, acc, rows, t);
      && |rows| <= |p.rows| && p.rows[..|rows|] == rows
      && (forall k :: |rows| <= k < |p.rows| ==> 0 < |p.rows[k]| <= 2 * t)
      && AccOk(p.rest, t)
    decreases |words| - i, if acc == "" then 0 else 1
  {
    if i < |words| {
      var st := BreakStep(acc, words[i], t);
      var rows' := rows + st.emitted;
      StepRowBounds(acc, words[i], t);
      assert forall k :: |rows| <= k < |rows'| ==> rows'[k] == st.emitted[k - |rows|];
      PackRows(words, if st.advance then i + 1 else i, st.acc, rows', t);
      var p := Pack(words, i, acc, rows, t);
      assert p.rows[..|rows'|] == rows';
      assert p.rows[..|rows|] == rows'[..|rows|];
    }
  }

  /** The trailing merge keeps the words of the rows and of the remainder, in order. */
  lemma FinishWords(p: Packed, t: int, threshold: real)
    ensures RowWords(Finish(p, t, threshold)) == RowWords(p.rows) + Words(p.rest)
  {
    var rows := Finish(p, t, threshold);
    if p.rest == "" {
      assert Words("") == [] by { assert Split("", Space) == [""]; }
    } else if (|p.rest| as real) < (t as real) * threshold && |p.rows| > 0 {
      var k := |p.rows| - 1;
      var front, last := p.rows[..k], p.rows[k];
      assert rows == front + [last + " " + p.rest];
      assert p.rows == front + [last];
      RowWordsAppend(front, [last]);
      RowWordsAppend(front, [last + " " + p.rest]);
      RowWordsSingle(last);
      RowWordsSingle(last + " " + p.rest);
      WordsJoin(last, p.rest);
    } else {
      RowWordsAppend(p.rows, [p.rest]);
      RowWordsSingle(p.rest);
    }
  }

  /** No non-empty word of the line is dropped or reordered by breaking it into rows. */
  lemma BreakLineWords(line: string, t: int, threshold: real)
    requires NoStall(Split(line, Space), t)
    ensures RowWords(BreakLine(line, t, threshold)) == Words(line)
  {
    var words := Split(line, Space);
    PackWords(words, 0, "", [], t);
    assert words[0..] == words;
    assert Words("") == [] by { assert Split("", Space) == [""]; }
    FinishWords(Pack(words, 0, "", [], t), t, threshold);
  }

  /**
   * For a non-negative target every row is non-empty and every row but the last is at most
   * twice the target long (the last may have absorbed the trailing remainder).
   */
  lemma BreakLineRowBounds(line: string, t: int, threshold: real)
    requires NoStall(Split(line, Space), t) && t >= 0
    ensures var rows := BreakLine(line, t, threshold);
      && (forall k :: 0 <= k < |rows| ==> |rows[k]| > 0)
      && (forall k :: 0 <= k < |rows| - 1 ==> |rows[k]| <= 2 * t)
  {
    var words := Split(line, Space);
    PackRows(words, 0, "", [], t);
  }

  /** An empty line gives no rows when the target is non-negative. */
  lemma BreakLineEmpty(t: int, threshold: real)
    requires t >= 0
    ensures NoStall(Split("", Space), t) && BreakLine("", t, threshold) == []
  {
    assert Split("", Space) == [""];
    assert Pack([""], 1, "", [], t) == Packed([], "");
    assert Pack([""], 0, "", [], t) == Packed([], "");
  }

  /** With a negative target even an empty line overflows and gives one empty row. */
  lemma BreakLineEmptyNegative(t: int, threshold: real)
    requires t < 0
    ensures NoStall(Split("", Space), t) && BreakLine("", t, threshold) == [""]
  {
    assert Split("", Space) == [""];
    assert Pack([""], 1, "", [""], t) == Packed([""], "");
    assert Pack([""], 0, "", [], t) == Packed([""], "");
  }

  // ---------------------------------------------------------------------------
  // The breaker with the stall removed

  /**
   * One iteration of the corrected breaker: the empty row so far is never emitted, so a
   * word that overflows on its own becomes a row by itself and the loop moves on.
   */
  function FixedBreakStep(acc: string, w: string, t: int): (r: Step)
    ensures !(acc == "" && Stalls(w, t)) ==> r == BreakStep(acc, w, t)
    ensures acc == "" && Stalls(w, t) ==> r == Step([w], "", true)
    ensures !r.advance ==> acc != "" && r.acc == ""
  {
    var b := Grow(acc, w);
    assert acc == "" ==> b == w;
    if |b| > t then
      if acc != "" && Abs(|acc| - t) < Abs(|b| - t) then Step([acc], "", false)
      else Step([b], "", true)
    else Step([], b, true)
  }

  /** The word loop of the corrected breaker; it ends on every input. */
  function FixedPack(words: seq<string>, i: nat, acc: string, rows: seq<string>, t: int): Packed
    requires i <= |words|
    decreases |words| - i, if acc == "" then 0 else 1
  {
    if i == |words| then Packed(rows, acc)
    else
      var st := FixedBreakStep(acc, words[i], t);
      FixedPack(words, if st.advance then i + 1 else i, st.acc, rows + st.emitted, t)
  }

  /** The rows of one line under the corrected breaker, defined for every line and target. */
  function FixedBreakLine(line: string, t: int, threshold: real): seq<string>
  {
    Finish(FixedPack(Split(line, Space), 0, "", [], t), t, threshold)
  }

  /** One corrected iteration keeps the words, as the original one does. */
  lemma FixedStepWords(acc: string, w: string, t: int)
    requires Avoids(w, Space)
    ensures var st := FixedBreakStep(acc, w, t);
      RowWords(st.emitted) + Words(st.acc) + (if st.advance then [] else NonEmpty([w])) == Words(acc) + NonEmpty([w])
  {
    if acc == "" && Stalls(w, t) {
      RowWordsSingle(w);
      WordsGrow("", w);
      assert Grow("", w) == w;
      assert Words("") == [] by { assert Split("", Space) == [""]; }
    } else {
      StepWords(acc, w, t);
    }
  }

  lemma {:induction false} FixedPackWords(words: seq<string>, i: nat, acc: string, rows: seq<string>, t: int)
    requires i <= |words| && SpaceFree(words)
    ensures var p := FixedPack(words, i, acc, rows, t);
      RowWords(p.rows) + Words(p.rest) == RowWords(rows) + Words(acc) + NonEmpty(words[i..])
    decreases |words| - i, if acc == "" then 0 else 1
  {
    if i == |words| {
      assert words[i..] == [];
    } else {
      var w := words[i];
      var st := FixedBreakStep(acc, w, t);
      var i' := if st.advance then i + 1 else i;
      var rows' := rows + st.emitted;
      assert FixedPack(words, i, acc, rows, t) == FixedPack(words, i', st.acc, rows', t);
      FixedPackWords(words, i', st.acc, rows', t);
      FixedStepWords(acc, w, t);
      RowWordsAppend(rows, st.emitted);
      assert words[i..] == [w] + words[i + 1..];
      NonEmptyAppend([w], words[i + 1..]);
      var E, A := RowWords(st.emitted), Words(st.acc);
      var W := if st.advance then [] else NonEmpty([w]);
      var R := NonEmpty(words[i + 1..]);
      assert NonEmpty(words[i'..]) == W + R;
      assert E + A + W == Words(acc) + NonEmpty([w]);
      assert NonEmpty(words[i..]) == NonEmpty([w]) + R;
      var X := RowWords(rows);
      assert RowWords(rows') == X + E;
      Regroup(X, E, A, W, R, Words(acc), NonEmpty([w]));
    }
  }

  /** On every line, with no precondition, the corrected breaker drops and reorders no word. */
  lemma FixedBreakLineWords(line: string, t: int, threshold: real)
    ensures RowWords(FixedBreakLine(line, t, threshold)) == Words(line)
  {
    var words := Split(line, Space);
    FixedPackWords(words, 0, "", [], t);
    assert words[0..] == words;
    assert Words("") == [] by { assert Split("", Space) == [""]; }
    FinishWords(FixedPack(words, 0, "", [], t), t, threshold);
  }

  lemma {:induction false} FixedPackAgrees(words: seq<string>, i: nat, acc: string, rows: seq<string>, t: int)
    requires i <= |words| && NoStall(words, t)
    ensures FixedPack(words, i, acc, rows, t) == Pack(words, i, acc, rows, t)
    decreases |words| - i, if acc == "" then 0 else 1
  {
    if i < |words| {
      var st := BreakStep(acc, words[i], t);
      assert FixedBreakStep(acc, words[i], t) == st;
      FixedPackAgrees(words, if st.advance then i + 1 else i, st.acc, rows + st.emitted, t);
    }
  }

  /** Wherever the word loop as written ends, the corrected breaker gives the same rows. */
  lemma FixedBreakLineAgrees(line: string, t: int, threshold: real)
    requires NoStall(Split(line, Space), t)
    ensures FixedBreakLine(line, t, threshold) == BreakLine(line, t, threshold)
  {
    FixedPackAgrees(Split(line, Space), 0, "", [], t);
  }

  /** The line "aaa" with target 1, which stalls the loop as written, is one row when corrected. */
  lemma FixedBreaksStallingLine()
    ensures Stalls("aaa", 1) && !NoStall(Split("aaa", Space), 1)
    ensures FixedBreakLine("aaa", 1, 0.33) == ["aaa"]
  {
    SplitAvoiding("aaa", Space);
    assert Split("aaa", Space)[0] == "aaa";
    assert FixedPack(["aaa"], 1, "", ["aaa"], 1) == Packed(["aaa"], "");
    assert FixedPack(["aaa"], 0, "", [], 1) == Packed(["aaa"], "");
  }

  // ---------------------------------------------------------------------------
  // generateTextRows(): lines, trimmed, each broken into rows

  predicate LinesBreakable(lines: seq<string>, t: int)
  {
    forall k :: 0 <= k < |lines| ==> NoStall(Split(Trim(lines[k], WhitespacesAndNewlines), Space), t)
  }

  predicate TextBreakable(text: string, t: int)
  {
    LinesBreakable(Split(text, Newlines), t)
  }

  function RowsOfLines(lines: seq<string>, t: int, threshold: real): seq<string>
    requires LinesBreakable(lines, t)
  {
    if |lines| == 0 then []
    else BreakLine(Trim(lines[0], WhitespacesAndNewlines), t, threshold)
         + RowsOfLines(lines[1..], t, threshold)
  }

  /** The rows of a whole text: split on newlines, trim each line, break each line, concatenate. */
  function TextRows(text: string, t: int, threshold: real): seq<string>
    requires TextBreakable(text, t)
  {
    RowsOfLines(Split(text, Newlines), t, threshold)
  }

  lemma {:induction false} RowsOfLinesAppend(a: seq<string>, b: seq<string>, t: int, threshold: real)
    requires LinesBreakable(a, t) && LinesBreakable(b, t)
    ensures LinesBreakable(a + b, t)
    ensures RowsOfLines(a + b, t, threshold) == RowsOfLines(a, t, threshold) + RowsOfLines(b, t, threshold)
  {
    if |a| > 0 {
      assert (a + b)[1..] == a[1..] + b;
      RowsOfLinesAppend(a[1..], b, t, threshold);
    } else {
      assert a + b == b;
    }
  }

  /** The rows of a text are the rows of the part before a line break followed by those of the part after it. */
  lemma TextRowsAppend(a: string, c: char, b: string, t: int, threshold: real)
    requires c in Newlines
    requires TextBreakable(a, t) && TextBreakable(b, t)
    ensures TextBreakable(a + [c] + b, t)
    ensures TextRows(a + [c] + b, t, threshold) == TextRows(a, t, threshold) + TextRows(b, t, threshold)
  {
    SplitAt(a, c, b, Newlines);
    RowsOfLinesAppend(Split(a, Newlines), Split(b, Newlines), t, threshold);
  }

  /** A line of nothing but whitespace contributes no rows when the target is non-negative. */
  lemma BlankLineNoRows(line: string, t: int, threshold: real)
    requires t >= 0
    requires forall k :: 0 <= k < |line| ==> line[k] in WhitespacesAndNewlines
    ensures Trim(line, WhitespacesAndNewlines) == ""
    ensures LinesBreakable([line], t) && RowsOfLines([line], t, threshold) == []
  {
    BreakLineEmpty(t, threshold);
    assert [line][1..] == [];
  }

  /** The words of all rows are the words of the trimmed lines, line after line. */
  function LineWords(lines: seq<string>): seq<string>
  {
    if |lines| == 0 then [] else Words(Trim(lines[0], WhitespacesAndNewlines)) + LineWords(lines[1..])
  }

  lemma {:induction false} RowsOfLinesWords(lines: seq<string>, t: int, threshold: real)
    requires LinesBreakable(lines, t)
    ensures RowWords(RowsOfLines(lines, t, threshold)) == LineWords(lines)
  {
    if |lines| > 0 {
      var line := Trim(lines[0], WhitespacesAndNewlines);
      BreakLineWords(line, t, threshold);
      RowsOfLinesWords(lines[1..], t, threshold);
      RowWordsAppend(BreakLine(line, t, threshold), RowsOfLines(lines[1..], t, threshold));
    }
  }

  lemma TextRowsWords(text: string, t: int, threshold: real)
    requires TextBreakable(text, t)
    ensures RowWords(TextRows(text, t, threshold)) == LineWords(Split(text, Newlines))
  {
    RowsOfLinesWords(Split(text, Newlines), t, threshold);
  }
}
