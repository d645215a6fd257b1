/** The line parser inside `generate_questions` (utils.py:128-138): a model
    response is cut into lines, and each stripped line that looks like a
    numbered or bulleted item is cleaned of its marker and kept when what
    remains is longer than ten characters. */
module QuestionParser {
  import opened PyStr

  /** A parsed question must be longer than this. */
  const MinLength: nat := 10

  /** A stripped line is taken as an item when it is non-empty and starts
      with `tag` (which is `str(num_questions)`), a bullet `•` or `-`, or one
      of `1.`, `2.`, `3.`; the fixed markers are compared character by
      character, which `MarkedPrefixes` shows to be the same test. */
  predicate IsMarked(line: string, tag: string) {
    && line != []
    && (|| StartsWith(line, tag)
        || line[0] == '•'
        || line[0] == '-'
        || (|line| >= 2 && '1' <= line[0] <= '3' && line[1] == '.'))
  }

  /** `IsMarked` is the `startswith` test of utils.py:133 with its six prefixes. */
  lemma MarkedPrefixes(line: string, tag: string)
    ensures IsMarked(line, tag) <==>
      && line != []
      && (|| StartsWith(line, tag)
          || StartsWith(line, "•")
          || StartsWith(line, "-")
          || StartsWith(line, "1.")
          || StartsWith(line, "2.")
          || StartsWith(line, "3."))
  {
  }

  /** `re.sub(r'^\d+\.\s*', '', s)`: a leading number, its dot and the
      whitespace after it are removed. */
  function DropNumber(s: string): string {
    var k := DigitEnd(s, 0);
    if 0 < k < |s| && s[k] == '.' then s[SkipSpace(s, k + 1)..] else s
  }

  /** `re.sub(r'^[•\-]\s*', '', s)`: a leading bullet and the whitespace
      after it are removed. */
  function DropBullet(s: string): string {
    if s != [] && (s[0] == '•' || s[0] == '-') then s[SkipSpace(s, 1)..] else s
  }

  /** The question text of a marked line. */
  function Clean(line: string): string {
    DropBullet(DropNumber(line))
  }

  /** A character the cleaner may remove: part of a leading number, its dot,
      a bullet, or whitespace after them. */
  predicate MarkerChar(c: char) {
    IsDigit(c) || c == '.' || c == '•' || c == '-' || IsSpace(c)
  }

  /** Every character of `s` before position `k` is a marker character. */
  predicate MarkerPrefix(s: string, k: nat)
    requires k <= |s|
  {
    forall m :: 0 <= m < k ==> MarkerChar(s[m])
  }

  /** `q` is `s[k..]` with only marker characters before position `k`. */
  predicate MarkerSuffix(s: string, q: string) {
    exists k: nat :: k <= |s| && q == s[k..] && MarkerPrefix(s, k)
  }

  /** A leading number, its dot and the whitespace after them are marker
      characters, and what follows does not start with whitespace. */
  lemma DropNumberSpec(s: string)
    ensures MarkerSuffix(s, DropNumber(s))
    ensures s != [] && !IsSpace(s[0]) && DropNumber(s) != [] ==> !IsSpace(DropNumber(s)[0])
  {
    var d := DigitEnd(s, 0);
    if 0 < d < |s| && s[d] == '.' {
      var k := SkipSpace(s, d + 1);
      assert DropNumber(s) == s[k..];
      assert MarkerPrefix(s, k);
    } else {
      assert DropNumber(s) == s[0..] && MarkerPrefix(s, 0);
    }
  }

  /** A leading bullet and the whitespace after it are marker characters, and
      what follows does not start with whitespace. */
  lemma DropBulletSpec(s: string)
    ensures MarkerSuffix(s, DropBullet(s))
    ensures (s == [] || !IsSpace(s[0])) && DropBullet(s) != [] ==> !IsSpace(DropBullet(s)[0])
  {
    if s != [] && (s[0] == '•' || s[0] == '-') {
      var k := SkipSpace(s, 1);
      assert DropBullet(s) == s[k..];
      assert MarkerPrefix(s, k);
    } else {
      assert DropBullet(s) == s[0..] && MarkerPrefix(s, 0);
    }
  }

  /** Marker characters before `i`, and before `j` in what follows, are
      marker characters before `i + j`. */
  lemma MarkerPrefixJoin(s: string, i: nat, j: nat)
    requires i + j <= |s| && MarkerPrefix(s, i) && MarkerPrefix(s[i..], j)
    ensures MarkerPrefix(s, i + j) && s[i..][j..] == s[i + j..]
  {
    forall m | i <= m < i + j
      ensures MarkerChar(s[m])
    {
      assert s[m] == s[i..][m - i];
    }
  }

  lemma MarkerSuffixTrans(s: string, a: string, b: string)
    requires MarkerSuffix(s, a) && MarkerSuffix(a, b)
    ensures MarkerSuffix(s, b)
  {
    var i: nat :| i <= |s| && a == s[i..] && MarkerPrefix(s, i);
    var j: nat :| j <= |a| && b == a[j..] && MarkerPrefix(a, j);
    MarkerPrefixJoin(s, i, j);
  }

  /** The cleaner only takes a marker off the front: the question is a suffix
      of the line with nothing but digits, dots, bullets and whitespace cut
      away, and the question of a line that does not start with whitespace
      does not start with whitespace either. */
  lemma CleanSpec(line: string)
    ensures MarkerSuffix(line, Clean(line))
    ensures line != [] && !IsSpace(line[0]) && Clean(line) != [] ==> !IsSpace(Clean(line)[0])
  {
    DropNumberSpec(line);
    DropBulletSpec(DropNumber(line));
    MarkerSuffixTrans(line, DropNumber(line), Clean(line));
  }

  /** `^\d+\.\s*` matched: a run of digits `d`, a dot and the whitespace `w`
      after it are removed, and the rest `r` is kept. */
  lemma DropNumberRemoves(d: string, w: string, r: string)
    requires d != [] && AllDigits(d) && AllSpace(w)
    requires r == [] || !IsSpace(r[0])
    ensures DropNumber(d + "." + w + r) == r
  {
    var s := d + "." + w + r;
    assert s[|d|] == '.';
    var k := DigitEnd(s, 0);
    assert k == |d|;
    var j := SkipSpace(s, k + 1);
    assert j == |d| + 1 + |w| by {
      if |d| + 1 + |w| < |s| { assert s[|d| + 1 + |w|] == r[0]; }
    }
    assert s[j..] == r;
  }

  /** `^\d+\.\s*` not matched: a text that does not start with a digit is
      kept as it is. */
  lemma DropNumberKeeps(s: string)
    requires s == [] || !IsDigit(s[0])
    ensures DropNumber(s) == s
  {
  }

  /** `^\d+\.\s*` not matched: a run of digits `d` not followed by a dot is
      kept, with the rest `r`, as it is. */
  lemma DropNumberKeepsUndotted(d: string, r: string)
    requires d != [] && AllDigits(d)
    requires r == [] || (!IsDigit(r[0]) && r[0] != '.')
    ensures DropNumber(d + r) == d + r
  {
    var s := d + r;
    if r != [] { assert s[|d|] == r[0]; }
    assert DigitEnd(s, 0) == |d|;
  }

  /** `^[•\-]\s*` matched: a bullet `b` and the whitespace `w` after it are
      removed, and the rest `r` is kept. */
  lemma DropBulletRemoves(b: char, w: string, r: string)
    requires b == '•' || b == '-'
    requires AllSpace(w)
    requires r == [] || !IsSpace(r[0])
    ensures DropBullet([b] + w + r) == r
  {
    var s := [b] + w + r;
    var j := SkipSpace(s, 1);
    assert j == 1 + |w| by {
      if 1 + |w| < |s| { assert s[1 + |w|] == r[0]; }
    }
    assert s[j..] == r;
  }

  /** `^[•\-]\s*` not matched: a text that does not start with a bullet is
      kept as it is. */
  lemma DropBulletKeeps(s: string)
    requires s == [] || (s[0] != '•' && s[0] != '-')
    ensures DropBullet(s) == s
  {
  }

  /** A numbered line loses its number, dot and following whitespace, and then
      a bullet that may follow them. */
  lemma CleanNumbered(d: string, w: string, r: string)
    requires d != [] && AllDigits(d) && AllSpace(w)
    requires r == [] || !IsSpace(r[0])
    ensures Clean(d + "." + w + r) == DropBullet(r)
  {
    DropNumberRemoves(d, w, r);
  }

  /** A bulleted line loses its bullet and the whitespace after it, and
      nothing else. */
  lemma CleanBulleted(b: char, w: string, r: string)
    requires b == '•' || b == '-'
    requires AllSpace(w)
    requires r == [] || !IsSpace(r[0])
    ensures Clean([b] + w + r) == r
  {
    DropNumberKeeps([b] + w + r);
    DropBulletRemoves(b, w, r);
  }

  /** What one response line contributes: the cleaned text of the stripped
      line when that line is marked and the text is long enough. */
  function Pick(line: string, tag: string): seq<string> {
    var l := Strip(line);
    var q := Clean(l);
    if IsMarked(l, tag) && |q| > MinLength then [q] else []
  }

  /** The rule of `Pick` for one numbering tag, as a function of the line. */
  function PickRule(tag: string): string -> seq<string> {
    line => Pick(line, tag)
  }

  /** What each line contributes under a rule, line by line. */
  function MapLines(f: string -> seq<string>, lines: seq<string>): (ps: seq<seq<string>>)
    ensures |ps| == |lines|
  {
    seq(|lines|, i requires 0 <= i < |lines| => f(lines[i]))
  }

  /** The contributions of the first `k` lines, concatenated in line order. */
  function Flatten(ps: seq<seq<string>>, k: nat): seq<string>
    requires k <= |ps|
  {
    if k == 0 then [] else Flatten(ps, k - 1) + ps[k - 1]
  }

  /** What all lines contribute under a rule, in line order. */
  function Gather(f: string -> seq<string>, lines: seq<string>): seq<string> {
    Flatten(MapLines(f, lines), |lines|)
  }

  /** The questions parsed from the response lines. */
  function Parsed(lines: seq<string>, tag: string): seq<string> {
    Gather(PickRule(tag), lines)
  }

  /** The body of the loop at utils.py:131-138 for one line: the line's
      question, if it yields one, is appended to those found so far. */
  method ExamineLine(raw: string, tag: string, found: seq<string>) returns (questions: seq<string>)
    ensures questions == found + Pick(raw, tag)
  {
    questions := found;
    var line := Strip(raw);
    if IsMarked(line, tag) {
      var question := DropNumber(line);
      question := DropBullet(question);
      if question != [] && |question| > MinLength {
        questions := questions + [question];
      }
    }
  }

  /** The loop of utils.py:130-138 over the response lines. */
  method HarvestLines(lines: seq<string>, tag: string) returns (questions: seq<string>)
    ensures questions == Parsed(lines, tag)
  {
    questions := [];
    var i := 0;
    while i < |lines|
      invariant 0 <= i <= |lines|
      invariant questions == Flatten(MapLines(PickRule(tag), lines), i)
    {
      GatherStep(PickRule(tag), lines, i);
      questions := ExamineLine(lines[i], tag, questions);
      i := i + 1;
    }
  }

  /** utils.py:128-138: the questions of `questions_text.split('\n')`, with
      `str(num_questions)` as the numbering tag. */
  method ParseQuestions(response: string, n: int) returns (questions: seq<string>)
    ensures questions == Parsed(Split(response, '\n'), IntToString(n))
  {
    var lines := Split(response, '\n');
    questions := HarvestLines(lines, IntToString(n));
  }

  lemma MapAt(f: string -> seq<string>, lines: seq<string>, i: nat)
    requires i < |lines|
    ensures MapLines(f, lines)[i] == f(lines[i])
  {
  }

  /** One more line adds what the rule gives for it. */
  lemma GatherStep(f: string -> seq<string>, lines: seq<string>, i: nat)
    requires i < |lines|
    ensures Flatten(MapLines(f, lines), i + 1) == Flatten(MapLines(f, lines), i) + f(lines[i])
  {
  }

  /** Mapping is line by line: a block of lines maps to the maps of its parts. */
  lemma MapAppend(f: string -> seq<string>, a: seq<string>, b: seq<string>)
    ensures MapLines(f, a + b) == MapLines(f, a) + MapLines(f, b)
  {
    forall i | 0 <= i < |a + b|
      ensures MapLines(f, a + b)[i] == (MapLines(f, a) + MapLines(f, b))[i]
    {
      if i < |a| {
        assert (a + b)[i] == a[i];
      } else {
        assert (a + b)[i] == b[i - |a|];
      }
    }
  }

  /** Each element of a concatenation comes from one of its parts. */
  lemma {:induction false} FlattenSource(ps: seq<seq<string>>, k: nat)
    requires k <= |ps|
    ensures forall x :: x in Flatten(ps, k) ==> exists i :: 0 <= i < k && x in ps[i]
  {
    if k > 0 {
      FlattenSource(ps, k - 1);
      forall x | x in Flatten(ps, k)
        ensures exists i :: 0 <= i < k && x in ps[i]
      {
        if x in Flatten(ps, k - 1) {
          var i :| 0 <= i < k - 1 && x in ps[i];
          assert 0 <= i < k && x in ps[i];
        } else {
          assert x in ps[k - 1];
        }
      }
    }
  }

  /** Each element of each part occurs in the concatenation. */
  lemma {:induction false} FlattenComplete(ps: seq<seq<string>>, k: nat, i: nat, x: string)
    requires i < k <= |ps| && x in ps[i]
    ensures x in Flatten(ps, k)
  {
    if i < k - 1 {
      FlattenComplete(ps, k - 1, i, x);
    }
  }

  /** Parts of at most one element concatenate to no more elements than parts. */
  lemma {:induction false} FlattenLength(ps: seq<seq<string>>, k: nat)
    requires k <= |ps|
    requires forall i :: 0 <= i < |ps| ==> |ps[i]| <= 1
    ensures |Flatten(ps, k)| <= k
  {
    if k > 0 {
      FlattenLength(ps, k - 1);
    }
  }

  /** The first `k` parts concatenate alike whatever follows them. */
  lemma {:induction false} FlattenPrefix(a: seq<seq<string>>, b: seq<seq<string>>, k: nat)
    requires k <= |a|
    ensures Flatten(a + b, k) == Flatten(a, k)
  {
    if k > 0 {
      FlattenPrefix(a, b, k - 1);
      assert (a + b)[k - 1] == a[k - 1];
    }
  }

  lemma {:induction false} FlattenAppend(a: seq<seq<string>>, b: seq<seq<string>>, m: nat)
    requires m <= |b|
    ensures Flatten(a + b, |a| + m) == Flatten(a, |a|) + Flatten(b, m)
  {
    if m == 0 {
      FlattenPrefix(a, b, |a|);
    } else {
      FlattenAppend(a, b, m - 1);
      var x, y := Flatten(a, |a|), Flatten(b, m - 1);
      assert (a + b)[|a| + m - 1] == b[m - 1];
      assert Flatten(a + b, |a| + m) == x + y + b[m - 1];
      assert Flatten(b, m) == y + b[m - 1];
      assert x + y + b[m - 1] == x + (y + b[m - 1]);
    }
  }

  /** Gathering is line by line, whatever the rule. */
  lemma GatherAppend(f: string -> seq<string>, a: seq<string>, b: seq<string>)
    ensures Gather(f, a + b) == Gather(f, a) + Gather(f, b)
  {
    MapAppend(f, a, b);
    FlattenAppend(MapLines(f, a), MapLines(f, b), |b|);
  }

  /** A line contributes exactly when its stripped form is marked and its
      cleaned text is long enough, and then it contributes that text. */
  lemma PickSpec(line: string, tag: string)
    ensures Pick(line, tag) != [] <==> IsMarked(Strip(line), tag) && |Clean(Strip(line))| > MinLength
    ensures Pick(line, tag) != [] ==> Pick(line, tag) == [Clean(Strip(line))]
  {
  }

  /** Parsing is line by line: the questions of two blocks of lines are those
      of the first block followed by those of the second. */
  lemma ParsedAppend(a: seq<string>, b: seq<string>, tag: string)
    ensures Parsed(a + b, tag) == Parsed(a, tag) + Parsed(b, tag)
  {
    GatherAppend(PickRule(tag), a, b);
  }

  /** `q` is the cleaned text of a marked line among `lines`. */
  predicate FromMarkedLine(q: string, lines: seq<string>, tag: string) {
    exists i :: 0 <= i < |lines| && IsMarked(Strip(lines[i]), tag) && q == Clean(Strip(lines[i]))
  }

  /** Every parsed question is the cleaned text of a marked response line
      whose cleaned text is longer than ten characters; so there are no more
      questions than lines. */
  lemma ParsedSource(lines: seq<string>, tag: string)
    ensures |Parsed(lines, tag)| <= |lines|
    ensures forall q :: q in Parsed(lines, tag) ==> |q| > MinLength && FromMarkedLine(q, lines, tag)
  {
    var ps := MapLines(PickRule(tag), lines);
    forall i | 0 <= i < |ps|
      ensures |ps[i]| <= 1
      ensures forall x :: x in ps[i] ==> IsMarked(Strip(lines[i]), tag) && x == Clean(Strip(lines[i])) && |x| > MinLength
    {
      MapAt(PickRule(tag), lines, i);
      PickSpec(lines[i], tag);
    }
    FlattenLength(ps, |lines|);
    FlattenSource(ps, |lines|);
  }

  /** Every marked line whose cleaned text is longer than ten characters
      yields that text as a question: the parser drops nothing it should keep. */
  lemma ParsedComplete(lines: seq<string>, tag: string, i: nat)
    requires i < |lines|
    requires IsMarked(Strip(lines[i]), tag) && |Clean(Strip(lines[i]))| > MinLength
    ensures Clean(Strip(lines[i])) in Parsed(lines, tag)
  {
    MapAt(PickRule(tag), lines, i);
    PickSpec(lines[i], tag);
    FlattenComplete(MapLines(PickRule(tag), lines), |lines|, i, Clean(Strip(lines[i])));
  }
}
