/**
  The index builder of rag/build_index.py: a text is cut into overlapping
  windows (`chunk`), each window's whitespace is normalised (`clean`), and
  each becomes one JSON line of the index that the retrievers read.
*/
module BuildIndex {
  import opened Wrappers
  import opened Json
  import opened PyStr
  import OrchestratorStub

  // ---------------------------------------------------------------------
  // chunk
  // ---------------------------------------------------------------------

  /** Python's `s[i:j]` for a start `i >= 0`: a negative end counts from the back, and both ends are clipped. */
  function PySlice(s: string, i: nat, j: int): (r: string)
    ensures |r| <= |s|
  {
    var hi := if j < 0 then (if |s| + j < 0 then 0 else |s| + j) else if j > |s| then |s| else j;
    if i >= hi then [] else s[i..hi]
  }

  /** Where window `j` starts: `j` steps into the text. */
  function Start(j: nat, step: nat): nat {
    if j == 0 then 0 else Start(j - 1, step) + step
  }

  lemma {:induction false} StartIs(j: nat, step: nat)
    ensures Start(j, step) == j * step
  {
    if j > 0 {
      StartIs(j - 1, step);
    }
  }

  lemma {:induction false} StartMono(i: nat, j: nat, step: nat)
    requires i <= j
    ensures Start(i, step) <= Start(j, step)
    decreases j
  {
    if i < j {
      StartMono(i, j - 1, step);
    }
  }

  /** The number of windows: the least `m` with `m * step >= n`, that is, ceil(n / step). */
  function ChunkCount(n: nat, step: int): nat
    requires n == 0 || step > 0
  {
    if n == 0 then 0 else (n + step - 1) / step
  }

  /** `text[start : start + size]`. */
  function Window(text: string, start: nat, size: int): string {
    PySlice(text, start, start + size)
  }

  /** Window `j`: `text[j * step : j * step + size]`. */
  function ChunkAt(text: string, size: int, overlap: int, j: nat): string
    requires size > overlap
  {
    Window(text, Start(j, size - overlap), size)
  }

  /** `chunk(text, size, overlap)` in closed form; the loop ends only when the window advances or the text is empty. */
  function Chunks(text: string, size: int, overlap: int): seq<string>
    requires text == [] || size > overlap
  {
    if text == [] then []
    else
      seq(ChunkCount(|text|, size - overlap), j requires 0 <= j < ChunkCount(|text|, size - overlap) =>
        ChunkAt(text, size, overlap, j))
  }

  lemma MulMono(a: int, b: int, c: int)
    requires a <= b && c > 0
    ensures a * c <= b * c
  {
  }

  /** `m` steps reach `n` and `m - 1` do not: then `m` is the count. */
  lemma CeilDiv(n: nat, step: nat, m: nat)
    requires n > 0 && step > 0
    requires Start(m, step) >= n && Start(m, step) - step < n
    ensures ChunkCount(n, step) == m
  {
    StartIs(m, step);
    var x := n + step - 1;
    var q := x / step;
    assert q * step <= x < q * step + step;
    if q < m {
      MulMono(q + 1, m, step);
    } else if q > m {
      MulMono(m + 1, q, step);
    }
  }

  /** The count is the least number of steps that reaches the end of a non-empty text. */
  lemma CountBounds(n: nat, step: nat)
    requires n > 0 && step > 0
    ensures var m := ChunkCount(n, step); m >= 1 && Start(m - 1, step) < n <= Start(m, step)
  {
    var x := n + step - 1;
    var m := x / step;
    assert m * step <= x < m * step + step;
    StartIs(m, step);
    StartIs(m - 1, step);
  }

  /** Every window of the count starts inside the text. */
  lemma StartInside(n: nat, step: nat, j: nat)
    requires n > 0 && step > 0 && j < ChunkCount(n, step)
    ensures Start(j, step) < n
  {
    CountBounds(n, step);
    StartMono(j, ChunkCount(n, step) - 1, step);
  }

  /** A window of positive size that starts inside the text is that stretch of the text, cut at its end. */
  lemma WindowShape(text: string, start: nat, size: int)
    requires start < |text| && size >= 1
    ensures var e := if start + size <= |text| then start + size else |text|;
      Window(text, start, size) == text[start..e] && 1 <= |Window(text, start, size)| <= size
  {
  }

  /** `chunk(text, size, overlap)`. */
  method Chunk(text: string, size: int, overlap: int) returns (out: seq<string>)
    requires text == [] || size > overlap
    ensures out == Chunks(text, size, overlap)
  {
    out := [];
    var i := 0;
    while i < |text|
      invariant text == [] ==> out == []
      invariant text != [] ==> i == Start(|out|, size - overlap)
      invariant out != [] ==> i - (size - overlap) < |text|
      invariant forall j :: 0 <= j < |out| ==> out[j] == ChunkAt(text, size, overlap, j)
      decreases |text| - i
    {
      out := out + [PySlice(text, i, i + size)];
      i := i + (size - overlap);
    }
    if text != [] {
      CeilDiv(|text|, size - overlap, |out|);
      assert |out| == |Chunks(text, size, overlap)|;
      assert forall j :: 0 <= j < |out| ==> out[j] == Chunks(text, size, overlap)[j];
    }
  }

  /** `c` is the text from `s` to `size` further on, cut at the end of the text, with `s` inside the text. */
  predicate CutAt(text: string, s: nat, size: int, c: string) {
    s < |text| && c != [] && |c| <= size && c == text[s .. if s + size <= |text| then s + size else |text|]
  }

  /**
    For a positive size the text is empty exactly when there are no windows;
    every window is non-empty, at most `size` long, and is the text from its
    start to `size` further on, cut at the end of the text; every window
    starts inside the text and the last one reaches its end.
  */
  lemma ChunkShape(text: string, size: int, overlap: int)
    requires size > overlap && size >= 1
    ensures var cs := Chunks(text, size, overlap);
      && (text == [] <==> cs == [])
      && (cs != [] ==> |text| <= Start(|cs|, size - overlap))
      && forall j :: 0 <= j < |cs| ==> CutAt(text, Start(j, size - overlap), size, cs[j])
  {
    ChunksCount(text, size, overlap);
    if text != [] {
      var cs := Chunks(text, size, overlap);
      forall j | 0 <= j < |cs|
        ensures CutAt(text, Start(j, size - overlap), size, cs[j])
      {
        assert cs[j] == ChunkAt(text, size, overlap, j);
        ChunkAtShape(text, size, overlap, j);
      }
    }
  }

  /** A non-empty text has at least one window, and the windows' steps reach its end. */
  lemma ChunksCount(text: string, size: int, overlap: int)
    requires size > overlap
    ensures var cs := Chunks(text, size, overlap);
      (text == [] <==> cs == []) && (cs != [] ==> |text| <= Start(|cs|, size - overlap))
  {
    if text != [] {
      var m := ChunkCount(|text|, size - overlap);
      assert |Chunks(text, size, overlap)| == m;
      CountBounds(|text|, size - overlap);
    }
  }

  /** One window of the count: it starts inside the text and is the text from there, cut at `size` or the end. */
  lemma ChunkAtShape(text: string, size: int, overlap: int, j: nat)
    requires size > overlap && size >= 1 && j < ChunkCount(|text|, size - overlap)
    ensures CutAt(text, Start(j, size - overlap), size, ChunkAt(text, size, overlap, j))
  {
    StartInside(|text|, size - overlap, j);
    WindowShape(text, Start(j, size - overlap), size);
  }

  /** The first `step` characters of a window: what it adds before the next one starts. */
  function Head(c: string, step: nat): string {
    if |c| <= step then c else c[..step]
  }

  /** The heads of the first `m` windows, concatenated in order. */
  function JoinHeads(cs: seq<string>, m: nat, step: nat): string
    requires m <= |cs|
  {
    if m == 0 then [] else JoinHeads(cs, m - 1, step) + Head(cs[m - 1], step)
  }

  /** The head of the window at `start` is the text from `start` to `start + step`, cut at its end. */
  lemma HeadOfWindow(text: string, start: nat, size: int, step: nat)
    requires start < |text| && 1 <= step <= size
    ensures var e := if start + step <= |text| then start + step else |text|;
      Head(Window(text, start, size), step) == text[start..e]
  {
    WindowShape(text, start, size);
  }

  /** The windows `cs` start inside the text, one step apart from 0, each `size` long before the cut. */
  ghost predicate Windows(text: string, cs: seq<string>, size: int, step: nat) {
    forall j :: 0 <= j < |cs| ==> Start(j, step) < |text| && cs[j] == Window(text, Start(j, step), size)
  }

  /** With steps no longer than the windows, the heads of the first `m` windows spell the text up to window `m`'s start. */
  lemma {:induction false} HeadsPrefix(text: string, cs: seq<string>, size: int, step: nat, m: nat)
    requires Windows(text, cs, size, step) && 1 <= step <= size && m <= |cs|
    ensures var e := Start(m, step);
      JoinHeads(cs, m, step) == text[..if e <= |text| then e else |text|]
  {
    if m > 0 {
      HeadsPrefix(text, cs, size, step, m - 1);
      HeadsStep(text, cs, size, step, m);
    }
  }

  /** Window `m - 1`'s head continues the text spelled by the heads before it. */
  lemma HeadsStep(text: string, cs: seq<string>, size: int, step: nat, m: nat)
    requires 1 <= step <= size && 0 < m <= |cs|
    requires Start(m - 1, step) < |text| && cs[m - 1] == Window(text, Start(m - 1, step), size)
    requires JoinHeads(cs, m - 1, step) == text[..Start(m - 1, step)]
    ensures var e := Start(m, step);
      JoinHeads(cs, m, step) == text[..if e <= |text| then e else |text|]
  {
    var s := Start(m - 1, step);
    assert Start(m, step) == s + step;
    var e := if s + step <= |text| then s + step else |text|;
    assert Head(cs[m - 1], step) == text[s..e] by {
      HeadOfWindow(text, s, size, step);
    }
    ConcatSlices(text, s, e);
  }

  /** Joining the first `size - overlap` characters of every window gives back the text. */
  lemma Reconstruct(text: string, size: int, overlap: int)
    requires overlap >= 0 && size > overlap
    ensures var cs := Chunks(text, size, overlap); JoinHeads(cs, |cs|, size - overlap) == text
  {
    if text != [] {
      var cs, step := Chunks(text, size, overlap), size - overlap;
      forall j | 0 <= j < |cs|
        ensures Start(j, step) < |text|
      {
        StartInside(|text|, step, j);
      }
      HeadsPrefix(text, cs, size, step, |cs|);
      CountBounds(|text|, step);
    }
  }

  lemma ConcatSlices(text: string, s: nat, e: nat)
    requires s <= e <= |text|
    ensures text[..s] + text[s..e] == text[..e]
  {
  }

  /** Consecutive windows overlap: window `j` from offset `step` on is a prefix of window `j + 1`. */
  lemma Overlapping(text: string, size: int, overlap: int, j: nat)
    requires overlap >= 0 && size > overlap
    requires j + 1 < |Chunks(text, size, overlap)|
    ensures var cs := Chunks(text, size, overlap); var step := size - overlap;
      |cs[j]| >= step && StartsWith(cs[j + 1], cs[j][step..])
  {
    var step := size - overlap;
    StartInside(|text|, step, j + 1);
    WindowsOverlap(text, Start(j, step), size, step);
  }

  /** The window at `start` from offset `step` on begins the window at `start + step`. */
  lemma WindowsOverlap(text: string, start: nat, size: int, step: nat)
    requires start + step < |text| && 1 <= step <= size
    ensures |Window(text, start, size)| >= step
    ensures StartsWith(Window(text, start + step, size), Window(text, start, size)[step..])
  {
    var n, t := |text|, start + step;
    WindowShape(text, start, size);
    WindowShape(text, t, size);
    var ae := if start + size <= n then start + size else n;
    var be := if t + size <= n then t + size else n;
    var a, b := text[start..ae], text[t..be];
    assert a[step..] == text[t..ae];
    assert b[..ae - t] == text[t..ae];
  }

  // ---------------------------------------------------------------------
  // clean
  // ---------------------------------------------------------------------

  /** `re.sub(r"\s+", " ", s)`; `inRun` says the previous character was whitespace. */
  function Collapse(s: string, inRun: bool): string {
    if s == [] then []
    else if IsSpace(s[0]) then (if inRun then [] else [' ']) + Collapse(s[1..], true)
    else [s[0]] + Collapse(s[1..], false)
  }

  /** `clean(s)`. */
  function Clean(s: string): string {
    Strip(Collapse(s, false))
  }

  /** No two whitespace characters are adjacent, and every whitespace character is a plain space. */
  ghost predicate Normal(s: string) {
    (forall i :: 0 <= i < |s| ==> IsSpace(s[i]) ==> s[i] == ' ') &&
    forall i :: 0 <= i < |s| - 1 ==> !(IsSpace(s[i]) && IsSpace(s[i + 1]))
  }

  /** Putting a character in front keeps a string normal unless it makes a second whitespace in a row. */
  lemma NormalCons(c: char, rest: string)
    requires Normal(rest)
    requires IsSpace(c) ==> c == ' ' && (rest == [] || !IsSpace(rest[0]))
    ensures Normal([c] + rest)
  {
    var r := [c] + rest;
    assert forall i :: 1 <= i < |r| ==> r[i] == rest[i - 1];
  }

  lemma {:induction false} CollapseNormal(s: string, inRun: bool)
    ensures Normal(Collapse(s, inRun))
    ensures inRun && Collapse(s, inRun) != [] ==> !IsSpace(Collapse(s, inRun)[0])
  {
    if s != [] {
      CollapseNormal(s[1..], IsSpace(s[0]));
      var rest := Collapse(s[1..], IsSpace(s[0]));
      if !IsSpace(s[0]) {
        NormalCons(s[0], rest);
      } else if !inRun {
        NormalCons(' ', rest);
      }
    }
  }

  /** A normal string that does not start with whitespace after a run is left as it is. */
  lemma {:induction false} CollapseFixed(s: string, inRun: bool)
    requires Normal(s)
    requires inRun && s != [] ==> !IsSpace(s[0])
    ensures Collapse(s, inRun) == s
  {
    if s != [] {
      assert Normal(s[1..]) by {
        assert forall i :: 0 <= i < |s| - 1 ==> s[1..][i] == s[i + 1];
      }
      if |s| > 1 && IsSpace(s[0]) {
        assert !IsSpace(s[1]);
      }
      CollapseFixed(s[1..], IsSpace(s[0]));
    }
  }

  /** A part of a normal string is normal. */
  lemma NormalSlice(s: string, i: nat, j: nat)
    requires Normal(s) && i <= j <= |s|
    ensures Normal(s[i..j])
  {
    assert forall k :: 0 <= k < j - i ==> s[i..j][k] == s[i + k];
  }

  /** Stripping a normal string keeps it normal. */
  lemma StripNormal(s: string)
    requires Normal(s)
    ensures Normal(Strip(s))
  {
    LStripSpec(s);
    var l := LStrip(s);
    NormalSlice(s, |s| - |l|, |s|);
    RStripSpec(l);
    NormalSlice(l, 0, |RStrip(l)|);
  }

  /**
    The cleaned text neither begins nor ends with whitespace, has no two
    whitespace characters in a row, and every whitespace left is a space.
  */
  lemma CleanShape(s: string)
    ensures var c := Clean(s);
      && (c == [] || (!IsSpace(c[0]) && !IsSpace(c[|c| - 1])))
      && (forall i :: 0 <= i < |c| - 1 ==> !(IsSpace(c[i]) && IsSpace(c[i + 1])))
      && forall i :: 0 <= i < |c| ==> IsSpace(c[i]) ==> c[i] == ' '
  {
    CollapseNormal(s, false);
    StripNormal(Collapse(s, false));
    StripBounds(Collapse(s, false));
  }

  /** Cleaning twice is cleaning once. */
  lemma CleanIdempotent(s: string)
    ensures Clean(Clean(s)) == Clean(s)
  {
    var c := Clean(s);
    CleanShape(s);
    CollapseFixed(c, false);
    StripNoSurroundingSpace(c);
  }

  /** The characters that are not whitespace, in order. */
  function Visible(s: string): string {
    if s == [] then [] else (if IsSpace(s[0]) then [] else [s[0]]) + Visible(s[1..])
  }

  lemma {:induction false} VisibleAppend(a: string, b: string)
    ensures Visible(a + b) == Visible(a) + Visible(b)
  {
    if a == [] {
      assert a + b == b;
    } else {
      assert (a + b)[1..] == a[1..] + b;
      VisibleAppend(a[1..], b);
    }
  }

  /** Whitespace is invisible. */
  lemma {:induction false} VisibleBlank(w: string)
    requires forall i :: 0 <= i < |w| ==> IsSpace(w[i])
    ensures Visible(w) == []
  {
    if w != [] {
      VisibleBlank(w[1..]);
    }
  }

  lemma {:induction false} CollapseVisible(s: string, inRun: bool)
    ensures Visible(Collapse(s, inRun)) == Visible(s)
  {
    if s != [] {
      CollapseVisible(s[1..], IsSpace(s[0]));
      var head: string := if IsSpace(s[0]) then (if inRun then [] else [' ']) else [s[0]];
      VisibleAppend(head, Collapse(s[1..], IsSpace(s[0])));
    }
  }

  lemma StripVisible(s: string)
    ensures Visible(Strip(s)) == Visible(s)
  {
    LStripVisible(s);
    RStripVisible(LStrip(s));
  }

  lemma LStripVisible(s: string)
    ensures Visible(LStrip(s)) == Visible(s)
  {
    LStripSpec(s);
    var l := LStrip(s);
    var k := |s| - |l|;
    forall i | 0 <= i < k
      ensures IsSpace(s[..k][i])
    {
    }
    assert s == s[..k] + l;
    DropBlankPrefix(s[..k], l);
  }

  lemma RStripVisible(l: string)
    ensures Visible(RStrip(l)) == Visible(l)
  {
    RStripSpec(l);
    var r := RStrip(l);
    forall i | 0 <= i < |l| - |r|
      ensures IsSpace(l[|r|..][i])
    {
      assert l[|r|..][i] == l[|r| + i];
    }
    assert l == r + l[|r|..];
    DropBlankSuffix(r, l[|r|..]);
  }

  /** Leading whitespace is invisible. */
  lemma DropBlankPrefix(a: string, b: string)
    requires forall i :: 0 <= i < |a| ==> IsSpace(a[i])
    ensures Visible(a + b) == Visible(b)
  {
    VisibleAppend(a, b);
    VisibleBlank(a);
  }

  /** Trailing whitespace is invisible. */
  lemma DropBlankSuffix(a: string, b: string)
    requires forall i :: 0 <= i < |b| ==> IsSpace(b[i])
    ensures Visible(a + b) == Visible(a)
  {
    VisibleAppend(a, b);
    VisibleBlank(b);
    assert Visible(a) + [] == Visible(a);
  }

  /** Cleaning changes only whitespace: the other characters stay, in order. */
  lemma CleanKeepsText(s: string)
    ensures Visible(Clean(s)) == Visible(s)
  {
    CollapseVisible(s, false);
    StripVisible(Collapse(s, false));
  }

  // ---------------------------------------------------------------------
  // main: the index records
  // ---------------------------------------------------------------------

  /** `{"path": str(p), "chunk_id": i, "text": clean(piece)}`. */
  function IndexRecord(path: string, id: int, piece: string): Json {
    JObj(map["path" := JStr(path), "chunk_id" := JInt(id), "text" := JStr(Clean(piece))])
  }

  /** The records written for one file, numbered from 0 in window order. */
  function FileRecords(path: string, text: string): (rs: seq<Json>) {
    var cs := Chunks(text, 900, 150);
    seq(|cs|, i requires 0 <= i < |cs| => IndexRecord(path, i, cs[i]))
  }

  /** The retriever of chat/orchestrator_stub.py reads back the cleaned window of every record written. */
  lemma RecordsReadBack(path: string, text: string)
    ensures var rs := FileRecords(path, text); var cs := Chunks(text, 900, 150);
      |rs| == |cs| && forall i :: 0 <= i < |rs| ==>
        OrchestratorStub.RecordText(Some(rs[i])) == Some(Clean(cs[i])) && rs[i].fields["chunk_id"] == JInt(i)
  {
  }
}
