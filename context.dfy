/** How a document becomes the context of a prompt: whitespace is normalised,
    the result is cut to a fixed character budget, and a long text is cut
    into budget-sized chunks for summarising (utils.py). */
module Context {
  import opened PyStr

  /** The character budget of one prompt's document part. */
  const Budget: nat := 30000

  /** How many chunks `generate_summary` summarises at most. */
  const MaxChunks: nat := 3

  /** `re.sub(r"\s+", " ", s[i..])`: every maximal run of whitespace becomes a
      single space; everything else is kept in order. */
  function CollapseFrom(s: string, i: nat): (r: string)
    requires i <= |s|
    ensures forall k :: 0 <= k < |r| ==> IsSpace(r[k]) ==> r[k] == ' '
    ensures forall k :: 0 <= k < |r| - 1 ==> !(IsSpace(r[k]) && IsSpace(r[k + 1]))
    ensures (r == []) == (i == |s|)
    ensures r != [] ==> IsSpace(r[0]) == IsSpace(s[i])
    decreases |s| - i
  {
    if i == |s| then []
    else if IsSpace(s[i]) then " " + CollapseFrom(s, SkipSpace(s, i))
    else [s[i]] + CollapseFrom(s, i + 1)
  }

  /** `re.sub(r"\s+", " ", s)` */
  function CollapseSpace(s: string): string {
    CollapseFrom(s, 0)
  }

  /** `re.sub(r"\s+", " ", text).strip()` */
  function Normalize(text: string): string {
    Strip(CollapseSpace(text))
  }

  /** No whitespace at either end, and the only whitespace is single `' '`
      characters standing between non-whitespace ones. */
  predicate IsNormal(s: string) {
    && (s != [] ==> !IsSpace(s[0]) && !IsSpace(s[|s| - 1]))
    && SingleSpaced(s)
  }

  /** The only whitespace is single `' '` characters. */
  predicate SingleSpaced(s: string) {
    && (forall i :: 0 <= i < |s| ==> IsSpace(s[i]) ==> s[i] == ' ')
    && (forall i :: 0 <= i < |s| - 1 ==> !(IsSpace(s[i]) && IsSpace(s[i + 1])))
  }

  lemma SliceSingleSpaced(s: string, lo: nat, hi: nat)
    requires lo <= hi <= |s| && SingleSpaced(s)
    ensures SingleSpaced(s[lo..hi])
  {
    var t := s[lo..hi];
    forall i | 0 <= i < |t|
      ensures IsSpace(t[i]) ==> t[i] == ' '
    {
      assert t[i] == s[lo + i];
    }
    forall i | 0 <= i < |t| - 1
      ensures !(IsSpace(t[i]) && IsSpace(t[i + 1]))
    {
      assert t[i] == s[lo + i] && t[i + 1] == s[lo + i + 1];
    }
  }

  /** Normalised text has no edge whitespace and no whitespace other than
      single `' '` separators. */
  lemma NormalizeIsNormal(text: string)
    ensures IsNormal(Normalize(text))
  {
    var c := CollapseSpace(text);
    var a := SkipSpace(c, 0);
    var l := c[a..];
    var b := TrimSpace(l, |l|);
    var n := l[..b];
    assert n == Normalize(text);
    SliceSingleSpaced(c, a, |c|);
    SliceSingleSpaced(l, 0, b);
    if n != [] {
      assert n[0] == c[a];
      assert n[b - 1] == l[b - 1];
    }
  }

  /** A whitespace-free stretch is copied through by collapsing. */
  lemma {:induction false} CollapseKeepsToken(s: string, i: nat, k: nat)
    requires i <= k <= |s|
    requires forall m :: i <= m < k ==> !IsSpace(s[m])
    ensures CollapseFrom(s, i) == s[i..k] + CollapseFrom(s, k)
    decreases k - i
  {
    if i < k {
      CollapseKeepsToken(s, i + 1, k);
      assert s[i..k] == [s[i]] + s[i + 1..k];
      AppendAssoc([s[i]], s[i + 1..k], CollapseFrom(s, k));
    }
  }

  /** The trailing whitespace of `a + c` lies in `c` when `c` starts with a
      non-whitespace character. */
  lemma {:induction false} TrimShift(a: string, c: string, j: nat)
    requires c != [] && !IsSpace(c[0]) && 1 <= j <= |c|
    ensures TrimSpace(a + c, |a| + j) == |a| + TrimSpace(c, j)
  {
    assert (a + c)[|a| + j - 1] == c[j - 1];
    if IsSpace(c[j - 1]) {
      TrimShift(a, c, j - 1);
    }
  }

  /** Taking off the trailing whitespace of `a + c` leaves `a` alone when `c`
      begins with a non-whitespace character. */
  lemma RStripAppend(a: string, c: string)
    requires c != [] && !IsSpace(c[0])
    ensures RStrip(a + c) == a + RStrip(c)
  {
    TrimShift(a, c, |c|);
    var t := TrimSpace(c, |c|);
    assert (a + c)[..|a| + t] == a + c[..t];
  }

  /** A text that starts and ends with non-whitespace is its own strip. */
  lemma StripTight(s: string)
    requires s != [] && !IsSpace(s[0]) && !IsSpace(s[|s| - 1])
    ensures Strip(s) == s
  {
    assert LStrip(s) == s;
  }

  /** Stripping a word followed by a space and a text that starts with a
      non-whitespace character only strips that text's end. */
  lemma StripAfterWord(w: string, c: string)
    requires w != [] && HasNoSpace(w)
    requires c == [] || !IsSpace(c[0])
    ensures c == [] ==> Strip(w + " " + c) == w
    ensures c != [] ==> Strip(w + " " + c) == w + " " + Strip(c)
  {
    var x := w + " " + c;
    assert x[0] == w[0];
    assert LStrip(x) == x;
    if c == [] {
      assert x == w + " ";
      assert x[|x| - 1] == ' ';
      assert x[|w| - 1] == w[|w| - 1];
      assert TrimSpace(x, |x|) == |w|;
      assert x[..|w|] == w;
    } else {
      RStripAppend(w + " ", c);
      assert LStrip(c) == c;
    }
  }

  /** From a non-whitespace position, the first word is the token there, and
      collapsing copies that token through. */
  lemma WordAt(s: string, i: nat)
    requires i < |s| && !IsSpace(s[i])
    ensures var k := TokenEnd(s, i);
      && s[i..k] != [] && HasNoSpace(s[i..k])
      && WordsFrom(s, i) == [s[i..k]] + WordsFrom(s, k)
      && CollapseFrom(s, i) == s[i..k] + CollapseFrom(s, k)
  {
    var k := TokenEnd(s, i);
    var w := s[i..k];
    forall m | 0 <= m < |w|
      ensures !IsSpace(w[m])
    {
      assert w[m] == s[i + m];
    }
    CollapseKeepsToken(s, i, k);
  }

  /** The last word: a token that runs to the end of the text. */
  lemma LastWordCase(s: string, i: nat)
    requires i < |s| && !IsSpace(s[i]) && TokenEnd(s, i) == |s|
    ensures Strip(CollapseFrom(s, i)) == Join(WordsFrom(s, i), " ")
  {
    WordAt(s, i);
    var w := s[i..TokenEnd(s, i)];
    assert !IsSpace(w[|w| - 1]);
    StripTight(w);
    assert CollapseFrom(s, |s|) == [] && WordsFrom(s, |s|) == [];
    assert CollapseFrom(s, i) == w + [];
  }

  /** A word followed by whitespace: the rest is collapsed to one space and the
      words of what follows. */
  lemma GapCase(s: string, i: nat)
    requires i < |s| && !IsSpace(s[i]) && TokenEnd(s, i) < |s|
    requires var j := SkipSpace(s, TokenEnd(s, i));
      j < |s| ==> Strip(CollapseFrom(s, j)) == Join(WordsFrom(s, j), " ")
    ensures Strip(CollapseFrom(s, i)) == Join(WordsFrom(s, i), " ")
  {
    WordAt(s, i);
    var k := TokenEnd(s, i);
    var w := s[i..k];
    var j := SkipSpace(s, k);
    var c := CollapseFrom(s, j);
    assert CollapseFrom(s, i) == w + " " + c by {
      assert CollapseFrom(s, k) == " " + c;
      AppendAssoc(w, " ", c);
    }
    assert WordsFrom(s, i) == [w] + WordsFrom(s, j) by {
      assert WordsFrom(s, k) == WordsFrom(s, j);
    }
    StripAfterWord(w, c);
    if j < |s| {
      JoinCons(w, WordsFrom(s, j), " ");
    }
  }

  /** Collapsing and stripping the text from a non-whitespace position gives
      its words joined by single spaces. */
  lemma {:induction false} CollapseStripIsJoin(s: string, i: nat)
    requires i <= |s| && (i == |s| || !IsSpace(s[i]))
    ensures Strip(CollapseFrom(s, i)) == Join(WordsFrom(s, i), " ")
    decreases |s| - i
  {
    if i < |s| {
      var k := TokenEnd(s, i);
      if k == |s| {
        LastWordCase(s, i);
      } else {
        var j := SkipSpace(s, k);
        if j < |s| {
          CollapseStripIsJoin(s, j);
        }
        GapCase(s, i);
      }
    }
  }

  lemma AppendAssoc(a: string, b: string, c: string)
    ensures a + (b + c) == a + b + c
  {
  }

  /** The normalised text is `" ".join(text.split())`: its words, in order,
      separated by single spaces. */
  lemma NormalizeIsJoinOfWords(text: string)
    ensures Normalize(text) == Join(Words(text), " ")
  {
    var i := SkipSpace(text, 0);
    assert WordsFrom(text, 0) == WordsFrom(text, i);
    CollapseStripIsJoin(text, i);
    if i > 0 {
      var c := CollapseFrom(text, i);
      assert CollapseSpace(text) == " " + c;
      var x := " " + c;
      if c != [] {
        assert x[1] == c[0];
      }
      assert SkipSpace(x, 0) == 1;
      assert LStrip(x) == c;
      assert LStrip(c) == c;
    }
  }

  /** Collapsing leaves a single-spaced text as it is. */
  lemma {:induction false} CollapseNormal(s: string, i: nat)
    requires i <= |s| && SingleSpaced(s)
    ensures CollapseFrom(s, i) == s[i..]
    decreases |s| - i
  {
    if i < |s| {
      CollapseNormal(s, i + 1);
      if IsSpace(s[i]) {
        assert SkipSpace(s, i) == i + 1;
      }
      assert s[i..] == [s[i]] + s[i + 1..];
    }
  }

  /** Normalising twice is normalising once. */
  lemma NormalizeIdempotent(text: string)
    ensures Normalize(Normalize(text)) == Normalize(text)
  {
    var n := Normalize(text);
    NormalizeIsNormal(text);
    CollapseNormal(n, 0);
    assert CollapseSpace(n) == n;
    if n != [] {
      StripTight(n);
    }
  }

  /** The document part of a prompt: `context[:30000]` when the context is
      longer than the budget. It is always a prefix of the text, never longer
      than the budget, and the whole text when that fits. */
  function Truncate(s: string): (r: string)
    ensures |r| <= Budget && |r| <= |s|
    ensures r == s[..|r|]
    ensures |s| <= Budget ==> r == s
    ensures |s| > Budget ==> |r| == Budget
  {
    if |s| > Budget then s[..Budget] else s
  }

  /** What `answer_question`, `generate_questions`, `extract_key_points` and
      `generate_insights` put in their prompts. */
  function PromptContext(text: string): string {
    Truncate(Normalize(text))
  }

  /** `s[i:j]` for `0 <= i`, with Python's clamping at the end of `s`. */
  function PySlice(s: string, i: nat, j: nat): string {
    var lo := if i <= |s| then i else |s|;
    var hi := if j <= lo then lo else if j <= |s| then j else |s|;
    s[lo..hi]
  }

  /** `len(range(0, n, 30000))` */
  function ChunkCount(n: nat): nat {
    (n + Budget - 1) / Budget
  }

  /** `[s[i:i+30000] for i in range(0, len(s), 30000)]` */
  function Chunks(s: string): seq<string> {
    seq(ChunkCount(|s|), k requires 0 <= k => PySlice(s, k * Budget, k * Budget + Budget))
  }

  /** `chunks[:3]` */
  function FirstChunks(chunks: seq<string>): (r: seq<string>)
    ensures |r| == (if |chunks| <= MaxChunks then |chunks| else MaxChunks)
    ensures r == chunks[..|r|]
  {
    if |chunks| <= MaxChunks then chunks else chunks[..MaxChunks]
  }

  lemma ChunkCountBounds(n: nat)
    ensures ChunkCount(n) * Budget >= n
    ensures ChunkCount(n) > 0 ==> (ChunkCount(n) - 1) * Budget < n
    ensures (ChunkCount(n) == 0) == (n == 0)
  {
  }

  /** The chunks after the first `m` concatenate to the rest of the text. */
  lemma {:induction false} ChunksFrom(s: string, m: nat)
    requires m <= ChunkCount(|s|)
    ensures m * Budget <= |s| || m == ChunkCount(|s|)
    ensures Join(Chunks(s)[m..], "") == s[if m * Budget <= |s| then m * Budget else |s|..]
    decreases ChunkCount(|s|) - m
  {
    var cs := Chunks(s);
    var n := ChunkCount(|s|);
    ChunkCountBounds(|s|);
    if m == n {
      assert cs[m..] == [];
      assert n * Budget >= |s|;
      if m * Budget <= |s| {
        assert m * Budget == |s|;
      }
    } else {
      assert m * Budget <= (n - 1) * Budget < |s|;
      ChunksFrom(s, m + 1);
      var lo := m * Budget;
      var hi := if lo + Budget <= |s| then lo + Budget else |s|;
      assert cs[m] == s[lo..hi];
      if m + 1 == n {
        assert cs[m..] == [cs[m]];
        assert hi == |s|;
        assert s[lo..] == s[lo..hi];
      } else {
        assert (m + 1) * Budget <= (n - 1) * Budget < |s|;
        assert hi == (m + 1) * Budget;
        assert cs[m..][1..] == cs[m + 1..];
        assert s[lo..] == s[lo..hi] + s[hi..];
      }
    }
  }

  /** The chunks of a text concatenate back to it; each is non-empty and at
      most the budget long, and all but the last are exactly the budget. */
  lemma ChunksShape(s: string)
    ensures Join(Chunks(s), "") == s
    ensures |Chunks(s)| * Budget >= |s|
    ensures forall k :: 0 <= k < |Chunks(s)| ==> 0 < |Chunks(s)[k]| <= Budget
    ensures forall k :: 0 <= k < |Chunks(s)| - 1 ==> |Chunks(s)[k]| == Budget
    ensures |s| > Budget ==> |Chunks(s)| >= 2
  {
    var cs := Chunks(s);
    var n := ChunkCount(|s|);
    ChunkCountBounds(|s|);
    ChunksFrom(s, 0);
    assert cs[0..] == cs;
    forall k | 0 <= k < n
      ensures 0 < |cs[k]| <= Budget
      ensures k < n - 1 ==> |cs[k]| == Budget
    {
      assert k * Budget <= (n - 1) * Budget < |s|;
      if k < n - 1 {
        assert (k + 1) * Budget <= (n - 1) * Budget < |s|;
      }
    }
  }

  /** A text longer than three chunks contributes exactly its first three
      chunks, which together are its first 90000 characters. */
  lemma FirstThreeChunks(s: string)
    requires |s| > MaxChunks * Budget
    ensures |FirstChunks(Chunks(s))| == MaxChunks
    ensures Join(FirstChunks(Chunks(s)), "") == s[..MaxChunks * Budget]
  {
    var cs := Chunks(s);
    ChunkCountBounds(|s|);
    var f := FirstChunks(cs);
    assert f == cs[..3];
    assert f[0] == s[0..Budget];
    assert f[1] == s[Budget..2 * Budget];
    assert f[2] == s[2 * Budget..3 * Budget];
    assert f[1..][1..] == f[2..];
    assert Join(f[2..], "") == f[2];
    assert Join(f[1..], "") == f[1] + Join(f[2..], "");
    assert Join(f, "") == f[0] + Join(f[1..], "");
    assert s[..3 * Budget] == s[0..Budget] + s[Budget..2 * Budget] + s[2 * Budget..3 * Budget];
  }

  /** What a long document's summary is built from: at most three chunks,
      each within the budget; the whole text when it has at most 90000
      characters, and otherwise exactly three chunks making up its first 90000. */
  lemma SummarisedChunks(s: string)
    ensures |FirstChunks(Chunks(s))| <= MaxChunks
    ensures forall k :: 0 <= k < |FirstChunks(Chunks(s))| ==> 0 < |FirstChunks(Chunks(s))[k]| <= Budget
    ensures |s| > Budget ==> |FirstChunks(Chunks(s))| >= 2
    ensures |s| <= MaxChunks * Budget ==> Join(FirstChunks(Chunks(s)), "") == s
    ensures |s| > MaxChunks * Budget ==>
      |FirstChunks(Chunks(s))| == MaxChunks && Join(FirstChunks(Chunks(s)), "") == s[..MaxChunks * Budget]
  {
    ChunksShape(s);
    if |s| > MaxChunks * Budget {
      FirstThreeChunks(s);
    }
  }
}
