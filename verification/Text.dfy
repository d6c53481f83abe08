/**
 String handling the broker relies on: `strings.Fields`, `strings.Join`,
 `strings.Cut` and `strings.Split`, with the laws that make a space-joined scope
 string and a "Model/id" reference decode back to what was encoded.
 */
module Text {

  // --- words and spaces ----------------------------------------------------

  /** `unicode.IsSpace`. */
  predicate IsSpace(c: char) {
    || '\t' <= c <= '\r' || c == ' '
    || c == '\U{0085}' || c == '\U{00A0}' || c == '\U{1680}'
    || '\U{2000}' <= c <= '\U{200A}'
    || c == '\U{2028}' || c == '\U{2029}' || c == '\U{202F}' || c == '\U{205F}' || c == '\U{3000}'
  }

  predicate Spaceless(w: string) {
    forall i :: 0 <= i < |w| ==> !IsSpace(w[i])
  }

  predicate Word(w: string) {
    w != "" && Spaceless(w)
  }

  predicate Words(ws: seq<string>) {
    forall i :: 0 <= i < |ws| ==> Word(ws[i])
  }

  /** `cur` is the word being collected, `s` what is still to be read. */
  function FieldsFrom(s: string, cur: string): seq<string> {
    if s == "" then
      if cur == "" then [] else [cur]
    else if IsSpace(s[0]) then
      (if cur == "" then [] else [cur]) + FieldsFrom(s[1..], "")
    else
      FieldsFrom(s[1..], cur + [s[0]])
  }

  function Fields(s: string): seq<string> {
    FieldsFrom(s, "")
  }

  function Join(ws: seq<string>): string {
    if |ws| == 0 then ""
    else if |ws| == 1 then ws[0]
    else ws[0] + " " + Join(ws[1..])
  }

  /** What a scope string becomes each time a token is issued from it. */
  function Normalised(s: string): string {
    Join(Fields(s))
  }

  lemma {:induction false} FieldsSkipWord(w: string, rest: string, cur: string)
    requires Spaceless(w)
    ensures FieldsFrom(w + rest, cur) == FieldsFrom(rest, cur + w)
    decreases |w|
  {
    if w == "" {
      assert w + rest == rest && cur + w == cur;
    } else {
      assert (w + rest)[1..] == w[1..] + rest;
      FieldsSkipWord(w[1..], rest, cur + [w[0]]);
      assert cur + [w[0]] + w[1..] == cur + w;
    }
  }

  lemma {:induction false} FieldsFromAreWords(s: string, cur: string)
    requires Spaceless(cur)
    ensures Words(FieldsFrom(s, cur))
    decreases |s|
  {
    if s != "" {
      FieldsFromAreWords(s[1..], if IsSpace(s[0]) then "" else cur + [s[0]]);
    }
  }

  /** Splitting a joined list of words gives the list back. */
  lemma {:induction false} FieldsOfJoin(ws: seq<string>)
    requires Words(ws)
    ensures Fields(Join(ws)) == ws
    decreases |ws|
  {
    if |ws| == 1 {
      FieldsSkipWord(ws[0], "", "");
      assert ws[0] + "" == ws[0] && "" + ws[0] == ws[0];
      assert ws == [ws[0]];
    } else if |ws| > 1 {
      var rest := " " + Join(ws[1..]);
      assert Join(ws) == ws[0] + rest;
      FieldsSkipWord(ws[0], rest, "");
      assert "" + ws[0] == ws[0] && rest[1..] == Join(ws[1..]);
      FieldsOfJoin(ws[1..]);
      assert ws == [ws[0]] + ws[1..];
    }
  }

  /** Words separated by exactly one U+0020 each, nothing before or after. */
  predicate SingleSpaced(s: string) {
    && (s != "" ==> !IsSpace(s[0]))
    && Trails(s)
  }

  /** `s` may follow a word: every space in it is one U+0020 with a non-space after it. */
  predicate Trails(s: string) {
    forall i :: 0 <= i < |s| && IsSpace(s[i]) ==> s[i] == ' ' && i + 1 < |s| && !IsSpace(s[i + 1])
  }

  lemma TrailsTail(s: string)
    requires s != "" && Trails(s)
    ensures Trails(s[1..])
  {
    var t := s[1..];
    forall i | 0 <= i < |t| && IsSpace(t[i])
      ensures t[i] == ' ' && i + 1 < |t| && !IsSpace(t[i + 1])
    {
      assert t[i] == s[i + 1];
      assert i + 2 < |s|;
      assert t[i + 1] == s[i + 2];
    }
  }

  lemma {:induction false} JoinOfTrailing(s: string, cur: string)
    requires Word(cur) && Trails(s)
    ensures Join(FieldsFrom(s, cur)) == cur + s
    decreases |s|
  {
    if s == "" {
      assert cur + s == cur;
    } else if IsSpace(s[0]) {
      var t := s[1..];
      assert t[0] == s[1] && s == " " + t;
      TrailsTail(s);
      var u := t[1..];
      TrailsTail(t);
      JoinOfTrailing(u, [t[0]]);
      assert "" + [t[0]] == [t[0]];
      var rest := FieldsFrom(u, [t[0]]);
      assert FieldsFrom(t, "") == rest;
      assert [t[0]] + u == t;
      assert Join(rest) == t && t != "";
      assert FieldsFrom(s, cur) == [cur] + rest;
      assert ([cur] + rest)[1..] == rest;
      assert cur + " " + t == cur + s;
    } else {
      var t := s[1..];
      TrailsTail(s);
      JoinOfTrailing(t, cur + [s[0]]);
      assert cur + [s[0]] + t == cur + s;
    }
  }

  lemma {:induction false} JoinIsSingleSpaced(ws: seq<string>)
    requires Words(ws)
    ensures SingleSpaced(Join(ws))
    ensures |ws| > 0 ==> Join(ws) != ""
    decreases |ws|
  {
    if |ws| > 1 {
      JoinIsSingleSpaced(ws[1..]);
      var w, rest := ws[0], Join(ws[1..]);
      var s := w + " " + rest;
      assert forall k :: 0 <= k < |w| ==> s[k] == w[k];
      forall i | 0 <= i < |s| && IsSpace(s[i])
        ensures s[i] == ' ' && i + 1 < |s| && !IsSpace(s[i + 1])
      {
        if i > |w| {
          var j := i - |w| - 1;
          assert s[i] == rest[j];
          assert s[i + 1] == rest[j + 1];
        } else {
          assert s[i + 1] == rest[0];
        }
      }
      assert s[0] == w[0];
    }
  }

  /** A scope string survives re-issuing unchanged exactly when it is single-spaced. */
  lemma NormalisedIffSingleSpaced(s: string)
    ensures Normalised(s) == s <==> SingleSpaced(s)
  {
    FieldsFromAreWords(s, "");
    JoinIsSingleSpaced(Fields(s));
    if SingleSpaced(s) && s != "" {
      var t := s[1..];
      TrailsTail(s);
      JoinOfTrailing(t, [s[0]]);
      assert "" + [s[0]] == [s[0]];
      assert [s[0]] + t == s;
    }
  }

  lemma NormalisedIdempotent(s: string)
    ensures Fields(Normalised(s)) == Fields(s)
    ensures Normalised(Normalised(s)) == Normalised(s)
  {
    FieldsFromAreWords(s, "");
    FieldsOfJoin(Fields(s));
  }

  // --- cutting and splitting -----------------------------------------------

  datatype CutResult = CutResult(before: string, after: string, found: bool)

  /** `strings.Cut` at the first occurrence of one character. */
  function Cut(s: string, sep: char): CutResult {
    if s == "" then CutResult("", "", false)
    else if s[0] == sep then CutResult("", s[1..], true)
    else
      var r := Cut(s[1..], sep);
      CutResult([s[0]] + r.before, r.after, r.found)
  }

  lemma {:induction false} CutOfJoined(a: string, sep: char, b: string)
    requires sep !in a
    ensures Cut(a + [sep] + b, sep) == CutResult(a, b, true)
    decreases |a|
  {
    var s := a + [sep] + b;
    if a == "" {
      assert s[0] == sep && s[1..] == b;
    } else {
      assert s[0] == a[0] && s[1..] == a[1..] + [sep] + b;
      CutOfJoined(a[1..], sep, b);
      assert [a[0]] + a[1..] == a;
    }
  }

  /** `strings.Split` on one character: always at least one part. */
  function Split(s: string, sep: char): (parts: seq<string>)
    ensures |parts| >= 1
  {
    if s == "" then [""]
    else if s[0] == sep then [""] + Split(s[1..], sep)
    else
      var rest := Split(s[1..], sep);
      [[s[0]] + rest[0]] + rest[1..]
  }

  lemma {:induction false} SplitWithout(s: string, sep: char)
    requires sep !in s
    ensures Split(s, sep) == [s]
    decreases |s|
  {
    if s != "" {
      SplitWithout(s[1..], sep);
      assert [s[0]] + s[1..] == s;
    }
  }

  lemma {:induction false} SplitAtSeparator(a: string, sep: char, rest: string)
    requires sep !in a
    ensures Split(a + [sep] + rest, sep) == [a] + Split(rest, sep)
    decreases |a|
  {
    var s := a + [sep] + rest;
    if a == "" {
      assert s[0] == sep && s[1..] == rest;
    } else {
      assert s[0] == a[0] && s[1..] == a[1..] + [sep] + rest;
      SplitAtSeparator(a[1..], sep, rest);
      assert [a[0]] + a[1..] == a;
    }
  }

  /** What splits into three parts is those parts, free of the separator, with two separators between. */
  lemma SplitIntoThree(s: string, sep: char)
    requires |Split(s, sep)| == 3
    ensures
      var p := Split(s, sep);
      sep !in p[0] && sep !in p[1] && sep !in p[2] && s == p[0] + [sep] + p[1] + [sep] + p[2]
  {
    var i := HeadOfSplit(s, sep);
    var a, rest := s[..i], s[i + 1..];
    SplitIntoTwo(rest, sep);
    var q := Split(rest, sep);
    assert s == a + [sep] + rest && Split(s, sep) == [a, q[0], q[1]];
    assert a + [sep] + (q[0] + [sep] + q[1]) == a + [sep] + q[0] + [sep] + q[1];
  }

  lemma SplitIntoTwo(s: string, sep: char)
    requires |Split(s, sep)| == 2
    ensures
      var p := Split(s, sep);
      sep !in p[0] && sep !in p[1] && s == p[0] + [sep] + p[1]
  {
    var i := HeadOfSplit(s, sep);
    var a, rest := s[..i], s[i + 1..];
    LastOfSplit(rest, sep);
    assert s == a + [sep] + rest && Split(s, sep) == [a, rest];
  }

  lemma {:induction false} HeadOfSplit(s: string, sep: char) returns (i: nat)
    requires |Split(s, sep)| > 1
    ensures i < |s| && s[i] == sep && sep !in s[..i]
    ensures Split(s, sep) == [s[..i]] + Split(s[i + 1..], sep)
    decreases |s|
  {
    if s[0] == sep {
      i := 0;
    } else {
      var j := HeadOfSplit(s[1..], sep);
      i := j + 1;
      assert s[..i] == [s[0]] + s[1..][..j] && s[1..][j + 1..] == s[i + 1..];
    }
  }

  lemma {:induction false} LastOfSplit(s: string, sep: char)
    requires |Split(s, sep)| == 1
    ensures sep !in s && Split(s, sep) == [s]
    decreases |s|
  {
    if s != "" {
      LastOfSplit(s[1..], sep);
      assert [s[0]] + s[1..] == s;
    }
  }

  /** Three separator-free parts printed with separators split back into those parts. */
  lemma SplitThree(a: string, b: string, c: string, sep: char)
    requires sep !in a && sep !in b && sep !in c
    ensures Split(a + [sep] + b + [sep] + c, sep) == [a, b, c]
  {
    assert a + [sep] + b + [sep] + c == a + [sep] + (b + [sep] + c);
    SplitAtSeparator(a, sep, b + [sep] + c);
    SplitAtSeparator(b, sep, c);
    SplitWithout(c, sep);
  }
}
