/**
 The tail of a container's log: read in chunks into a bounded buffer, cut at a character
 boundary, freed of a partial first line and redacted line by line.
 */
module LogTail {
  import opened Outcome
  import opened Streams

  // ---------- Reading ----------

  // Some delivered chunk fills the whole buffer.
  predicate Flooded(input: seq<Reading>, limit: nat) {
    FloodedBefore(input, Live(input), limit)
  }

  predicate FloodedBefore(input: seq<Reading>, n: nat, limit: nat)
    requires n <= |input| && forall i | 0 <= i < n :: input[i].Chunk?
  {
    exists i | 0 <= i < n :: |input[i].bytes| >= limit
  }

  function Tail(s: string, limit: nat): (r: string)
    ensures |r| == Min(|s|, limit)
  {
    s[|s| - Min(|s|, limit)..]
  }

  // The buffer, and whether it was ever cut.
  datatype Buffer = Buffer(kept: string, truncated: bool)

  // One turn of the reading loop.
  function Keep(b: Buffer, chunk: string, limit: nat): (r: Buffer)
    requires |b.kept| <= limit
    ensures |r.kept| <= limit
  {
    if |chunk| >= limit then Buffer(chunk[|chunk| - limit..], true)
    else
      var overflow := Max(|b.kept| + |chunk| - limit, 0);
      Buffer(b.kept[overflow..] + chunk, b.truncated || overflow > 0)
  }

  function KeepAll(input: seq<Reading>, n: nat, limit: nat): (r: Buffer)
    requires n <= |input| && forall i | 0 <= i < n :: input[i].Chunk?
    ensures |r.kept| <= limit
  {
    if n == 0 then Buffer([], false) else Keep(KeepAll(input, n - 1, limit), input[n - 1].bytes, limit)
  }

  lemma {:induction false} TailExtends(before: string, chunk: string, limit: nat)
    ensures |chunk| >= limit ==> Tail(before + chunk, limit) == chunk[|chunk| - limit..]
    ensures |chunk| < limit ==>
              var kept := Tail(before, limit);
              Tail(before + chunk, limit) == kept[Max(|kept| + |chunk| - limit, 0)..] + chunk
  {
    var all := before + chunk;
    if |chunk| >= limit {
      assert all[|all| - limit..] == chunk[|chunk| - limit..];
    }
  }

  lemma {:induction false} KeepIsTail(all: string, b: Buffer, chunk: string, limit: nat)
    requires b.kept == Tail(all, limit)
    ensures Keep(b, chunk, limit).kept == Tail(all + chunk, limit)
    ensures Keep(b, chunk, limit).truncated <==> b.truncated || |chunk| >= limit || |b.kept| + |chunk| > limit
  {
    TailExtends(all, chunk, limit);
  }

  lemma {:induction false} FloodedNext(input: seq<Reading>, n: nat, limit: nat)
    requires n < |input| && forall i | 0 <= i <= n :: input[i].Chunk?
    ensures FloodedBefore(input, n + 1, limit) <==> FloodedBefore(input, n, limit) || |input[n].bytes| >= limit
  {
  }

  lemma {:induction false} KeepAllIsTail(input: seq<Reading>, n: nat, limit: nat)
    requires n <= |input| && forall i | 0 <= i < n :: input[i].Chunk?
    ensures KeepAll(input, n, limit).kept == Tail(Concat(input, n), limit)
    ensures KeepAll(input, n, limit).truncated <==> |Concat(input, n)| > limit || FloodedBefore(input, n, limit)
  {
    if n > 0 {
      KeepAllIsTail(input, n - 1, limit);
      KeepIsTail(Concat(input, n - 1), KeepAll(input, n - 1, limit), input[n - 1].bytes, limit);
      FloodedNext(input, n - 1, limit);
    }
  }

  // The reader keeps exactly the last bytes.  The flag is raised when bytes were lost, and
  // also when one chunk alone fills the buffer.
  lemma {:induction false} ReadTailIsExact(input: seq<Reading>, limit: nat)
    requires Content(input).Some?
    ensures var b := KeepAll(input, Live(input), limit);
            && b.kept == Tail(Content(input).value, limit)
            && (b.truncated <==> |Content(input).value| > limit || Flooded(input, limit))
  {
    KeepAllIsTail(input, Live(input), limit);
  }

  method KeepChunk(before: string, flag: bool, chunk: string, limit: nat) returns (kept: string, truncated: bool)
    requires |before| <= limit
    ensures Buffer(kept, truncated) == Keep(Buffer(before, flag), chunk, limit)
  {
    if |chunk| >= limit {
      return chunk[|chunk| - limit..], true;
    }
    kept, truncated := before, flag;
    var overflow := Max(|kept| + |chunk| - limit, 0);
    if overflow > 0 {
      kept := kept[overflow..];
      truncated := true;
    }
    kept := kept + chunk;
  }

  // read_tail_bounded: of everything read the last bytes are kept, and exactly those.
  method ReadTailBounded(input: seq<Reading>, limit: nat) returns (r: Option<Buffer>)
    ensures r.None? <==> Content(input).None?
    ensures r.Some? ==>
      var full := Content(input).value;
      && r.value.kept == full[if |full| > limit then |full| - limit else 0..]
      && (r.value.truncated <==> |full| > limit || Flooded(input, limit))
  {
    r := KeepChunks(input, limit);
    if r.Some? {
      ReadTailIsExact(input, limit);
    }
  }

  method KeepChunks(input: seq<Reading>, limit: nat) returns (r: Option<Buffer>)
    ensures r.None? <==> Content(input).None?
    ensures r.Some? ==> r.value == KeepAll(input, Live(input), limit)
  {
    var kept: string, truncated := [], false;
    var i := 0;
    while i < |input| && Delivers(input[i])
      invariant 0 <= i <= Live(input)
      invariant Buffer(kept, truncated) == KeepAll(input, i, limit)
    {
      kept, truncated := KeepChunk(kept, truncated, input[i].bytes, limit);
      i := i + 1;
    }
    r := if i < |input| && input[i].Broken? then None else Some(Buffer(kept, truncated));
  }

  // ---------- Cutting ----------

  const MAX_LOG_BYTES: nat := 64 * 1024

  // Bytes of a character in UTF-8.
  function Width(c: char): nat {
    if c as int < 0x80 then 1 else if c as int < 0x800 then 2 else if c as int < 0x1_0000 then 3 else 4
  }

  // The character in UTF-8, as section 3 of RFC 3629 lays it out.
  function Utf8(c: char): seq<int> {
    var n := c as int;
    if n < 0x80 then [n]
    else if n < 0x800 then [0xc0 + n / 0x40, 0x80 + n % 0x40]
    else if n < 0x1_0000 then [0xe0 + n / 0x1000, 0x80 + n / 0x40 % 0x40, 0x80 + n % 0x40]
    else [0xf0 + n / 0x4_0000, 0x80 + n / 0x1000 % 0x40, 0x80 + n / 0x40 % 0x40, 0x80 + n % 0x40]
  }

  // Its width is the number of its bytes, and they give it back.
  lemma {:induction false} WidthOfUtf8(c: char)
    ensures Width(c) == |Utf8(c)|
    ensures var b := Utf8(c);
      c as int == match |b|
                  case 1 => b[0]
                  case 2 => (b[0] - 0xc0) * 0x40 + (b[1] - 0x80)
                  case 3 => ((b[0] - 0xe0) * 0x40 + (b[1] - 0x80)) * 0x40 + (b[2] - 0x80)
                  case _ => (((b[0] - 0xf0) * 0x40 + (b[1] - 0x80)) * 0x40 + (b[2] - 0x80)) * 0x40 + (b[3] - 0x80)
  {
    var n := c as int;
    assert n / 0x1000 == n / 0x40 / 0x40 && n / 0x4_0000 == n / 0x1000 / 0x40;
  }

  // Bytes of the characters from i up to j.
  function Span(s: string, i: nat, j: nat): nat
    requires i <= j <= |s|
  {
    if i == j then 0 else Span(s, i, j - 1) + Width(s[j - 1])
  }

  function Bytes(s: string): nat {
    Span(s, 0, |s|)
  }

  predicate Ascii(s: string) {
    forall i | 0 <= i < |s| :: s[i] as int < 0x80
  }

  lemma {:induction false} SpanAdds(s: string, i: nat, j: nat, k: nat)
    requires i <= j <= k <= |s|
    ensures Span(s, i, k) == Span(s, i, j) + Span(s, j, k)
    ensures Span(s, j, k) >= k - j
  {
    if j < k {
      SpanAdds(s, i, j, k - 1);
    }
  }

  lemma {:induction false} AsciiSpan(s: string, i: nat, j: nat)
    requires Ascii(s) && i <= j <= |s|
    ensures Span(s, i, j) == j - i
  {
    if i < j {
      AsciiSpan(s, i, j - 1);
    }
  }

  predicate IsCharBoundary(s: string, offset: nat) {
    exists k | 0 <= k <= |s| :: Span(s, 0, k) == offset
  }

  // The longest run of whole characters at the end that fits.
  predicate LongestFit(s: string, limit: nat, drop: nat) {
    && drop <= |s| && Span(s, drop, |s|) <= limit
    && forall k | 0 <= k < drop :: Span(s, k, |s|) > limit
  }

  lemma {:induction false} CutIsLongestFit(s: string, limit: nat, drop: nat)
    requires limit < Bytes(s) && drop <= |s|
    requires Span(s, 0, drop) >= Bytes(s) - limit
    requires forall k | 0 <= k <= |s| && Span(s, 0, k) >= Bytes(s) - limit :: Span(s, 0, k) >= Span(s, 0, drop)
    ensures LongestFit(s, limit, drop)
  {
    SpanAdds(s, 0, drop, |s|);
    forall k | 0 <= k < drop
      ensures Span(s, k, |s|) > limit
    {
      SpanAdds(s, 0, k, |s|);
      SpanAdds(s, 0, k, drop);
    }
  }

  method BoundedTextTail(s: string, limit: nat) returns (kept: string, cut: bool)
    ensures cut <==> Bytes(s) > limit
    ensures exists drop | 0 <= drop <= |s| :: LongestFit(s, limit, drop) && kept == s[drop..]
  {
    if Bytes(s) <= limit {
      assert LongestFit(s, limit, 0) && s == s[0..];
      return s, false;
    }
    var start := Bytes(s) - limit;
    while !IsCharBoundary(s, start)
      invariant Bytes(s) - limit <= start <= Bytes(s)
      invariant forall k | 0 <= k <= |s| && Span(s, 0, k) >= Bytes(s) - limit :: Span(s, 0, k) >= start
      decreases Bytes(s) - start
    {
      assert Span(s, 0, |s|) != start;
      start := start + 1;
    }
    var drop :| 0 <= drop <= |s| && Span(s, 0, drop) == start;
    CutIsLongestFit(s, limit, drop);
    return s[drop..], true;
  }

  // ---------- Lines ----------

  function FirstNewline(s: string, from: nat): (n: nat)
    requires from <= |s|
    ensures from <= n <= |s|
    ensures forall i | from <= i < n :: s[i] != '\n'
    ensures n < |s| ==> s[n] == '\n'
    decreases |s| - from
  {
    if from == |s| || s[from] == '\n' then from else FirstNewline(s, from + 1)
  }

  predicate EndsLine(piece: string) {
    piece != [] && piece[|piece| - 1] == '\n'
  }

  // One more character: it begins a piece after a newline, and extends the last one otherwise.
  function Extend(pieces: seq<string>, c: char): seq<string> {
    var last := |pieces| - 1;
    if last < 0 || EndsLine(pieces[last]) then pieces + [[c]] else pieces[last := pieces[last] + [c]]
  }

  // The characters from i up to j in pieces, each ending just after a newline or at j.
  function Pieces(s: string, i: nat, j: nat): seq<string>
    requires i <= j <= |s|
  {
    if i == j then [] else Extend(Pieces(s, i, j - 1), s[j - 1])
  }

  function Glue(pieces: seq<string>, n: nat): string
    requires n <= |pieces|
  {
    if n == 0 then [] else Glue(pieces, n - 1) + pieces[n - 1]
  }

  predicate OneLine(piece: string) {
    piece != [] && forall i | 0 <= i < |piece| - 1 :: piece[i] != '\n'
  }

  predicate CutAtNewlines(pieces: seq<string>) {
    && (forall i | 0 <= i < |pieces| :: OneLine(pieces[i]))
    && (forall i | 0 <= i < |pieces| - 1 :: EndsLine(pieces[i]))
  }

  lemma {:induction false} GlueSame(x: seq<string>, y: seq<string>, n: nat)
    requires n <= |x| && n <= |y| && forall i | 0 <= i < n :: x[i] == y[i]
    ensures Glue(x, n) == Glue(y, n)
  {
    if n > 0 {
      GlueSame(x, y, n - 1);
    }
  }

  lemma {:induction false} ExtendKeeps(pieces: seq<string>, c: char)
    requires CutAtNewlines(pieces)
    ensures CutAtNewlines(Extend(pieces, c))
    ensures Glue(Extend(pieces, c), |Extend(pieces, c)|) == Glue(pieces, |pieces|) + [c]
  {
    var n, next := |pieces|, Extend(pieces, c);
    if n == 0 || EndsLine(pieces[n - 1]) {
      GlueSame(pieces, next, n);
    } else {
      GlueSame(pieces, next, n - 1);
      assert Glue(next, n) == Glue(next, n - 1) + (pieces[n - 1] + [c]);
      assert OneLine(pieces[n - 1]);
    }
  }

  // Together the pieces are the text, and newlines are only where a piece ends.
  lemma {:induction false} PiecesOfText(s: string, j: nat)
    requires j <= |s|
    ensures Glue(Pieces(s, 0, j), |Pieces(s, 0, j)|) == s[..j] && CutAtNewlines(Pieces(s, 0, j))
  {
    if j > 0 {
      PiecesOfText(s, j - 1);
      ExtendKeeps(Pieces(s, 0, j - 1), s[j - 1]);
    }
  }

  // A line loses its newline, together with a carriage return before it.
  function StripEnd(piece: string): string {
    if !EndsLine(piece) then piece
    else if |piece| > 1 && piece[|piece| - 2] == '\r' then piece[..|piece| - 2]
    else piece[..|piece| - 1]
  }

  function StripEnds(pieces: seq<string>): (lines: seq<string>)
    ensures |lines| == |pieces|
    ensures forall i | 0 <= i < |lines| :: lines[i] == StripEnd(pieces[i])
  {
    seq(|pieces|, i requires 0 <= i < |pieces| => StripEnd(pieces[i]))
  }

  function Lines(s: string): seq<string> {
    StripEnds(Pieces(s, 0, |s|))
  }

  function DiscardPartialLeadingLine(s: string, truncated: bool): string {
    if !truncated then s
    else if FirstNewline(s, 0) < |s| then s[FirstNewline(s, 0) + 1..] else []
  }

  lemma {:induction false} ExtendAfter(x: seq<string>, y: seq<string>, c: char)
    requires x != [] && EndsLine(x[|x| - 1])
    ensures Extend(x + y, c) == x + Extend(y, c)
  {
    if y == [] {
      assert x + y == x;
    } else {
      assert (x + y)[|x + y| - 1] == y[|y| - 1];
    }
  }

  lemma {:induction false} PieceEndsAtNewline(s: string, i: nat, p: nat)
    requires i < p <= |s| && s[p - 1] == '\n'
    ensures Pieces(s, i, p) != [] && EndsLine(Pieces(s, i, p)[|Pieces(s, i, p)| - 1])
  {
  }

  // A text is cut at a newline into the pieces before and the pieces after.
  lemma {:induction false} PiecesSplit(s: string, p: nat, j: nat)
    requires 0 < p <= j <= |s| && s[p - 1] == '\n'
    ensures Pieces(s, 0, j) == Pieces(s, 0, p) + Pieces(s, p, j)
  {
    if j == p {
      assert Pieces(s, p, j) == [];
    } else {
      PiecesSplit(s, p, j - 1);
      PieceEndsAtNewline(s, 0, p);
      ExtendAfter(Pieces(s, 0, p), Pieces(s, p, j - 1), s[j - 1]);
    }
  }

  lemma {:induction false} PiecesShift(s: string, t: string, p: nat, j: nat)
    requires p <= |s| && t == s[p..] && j <= |t|
    ensures Pieces(t, 0, j) == Pieces(s, p, p + j)
  {
    if j > 0 {
      PiecesShift(s, t, p, j - 1);
    }
  }

  lemma {:induction false} StripEndsAdd(x: seq<string>, y: seq<string>)
    ensures StripEnds(x + y) == StripEnds(x) + StripEnds(y)
  {
  }

  lemma {:induction false} LinesAfterNewline(s: string, t: string, p: nat)
    requires 0 < p <= |s| && s[p - 1] == '\n' && t == s[p..]
    ensures Lines(s) == StripEnds(Pieces(s, 0, p)) + Lines(t)
  {
    PiecesSplit(s, p, |s|);
    PiecesShift(s, t, p, |t|);
    StripEndsAdd(Pieces(s, 0, p), Pieces(s, p, |s|));
  }

  // A stretch without a newline before its end adds a line when it begins one, and none otherwise.
  lemma {:induction false} PiecesAlongLine(s: string, a: nat, b: nat)
    requires a < b <= |s| && forall i | a <= i < b - 1 :: s[i] != '\n'
    ensures |Pieces(s, 0, b)| == |Pieces(s, 0, a)| + if AtLineStart(s, a) then 1 else 0
  {
    if b > a + 1 {
      PiecesAlongLine(s, a, b - 1);
      LastPieceEnds(s, b - 1);
    } else if a > 0 {
      LastPieceEnds(s, a);
    }
  }

  predicate AtLineStart(s: string, p: nat)
    requires p <= |s|
  {
    p == 0 || s[p - 1] == '\n'
  }

  lemma {:induction false} LastPieceEnds(s: string, j: nat)
    requires 0 < j <= |s|
    ensures var pieces := Pieces(s, 0, j);
            && pieces != [] && pieces[|pieces| - 1] != []
            && pieces[|pieces| - 1][|pieces[|pieces| - 1]| - 1] == s[j - 1]
  {
  }

  // Dropping everything through a newline, or the whole text, drops whole lines.
  lemma {:induction false} SuffixLines(s: string, p: nat) returns (dropped: seq<string>)
    requires p <= |s| && (p == 0 || p == |s| || s[p - 1] == '\n')
    ensures Lines(s) == dropped + Lines(s[p..]) && |dropped| == |Pieces(s, 0, p)|
  {
    var t := s[p..];
    if p == 0 {
      assert t == s;
      return [];
    } else if p == |s| {
      assert Lines(t) == [];
      return Lines(s);
    } else {
      LinesAfterNewline(s, t, p);
      return StripEnds(Pieces(s, 0, p));
    }
  }

  // ---------- Redaction ----------

  const MARKERS := ["authorization", "bearer", "credential", "jobcred", "secret", "token", "private_key"]

  predicate Contains(s: string, part: string) {
    exists i | 0 <= i <= |s| :: part <= s[i..]
  }

  predicate Marked(line: string) {
    exists i | 0 <= i < |MARKERS| :: Contains(Lower(line), MARKERS[i])
  }

  predicate IsControl(c: char) {
    c as int < 0x20 || 0x7f <= c as int < 0xa0
  }

  predicate Shown(c: char) {
    !IsControl(c) || c == '\t'
  }

  function ShownFirst(s: string, n: nat): string
    requires n <= |s|
  {
    if n == 0 then [] else ShownFirst(s, n - 1) + if Shown(s[n - 1]) then [s[n - 1]] else []
  }

  function WithoutControls(s: string): string {
    ShownFirst(s, |s|)
  }

  // A tab, or no control character: neither of the first 32, nor of the 33 from the 128th on.
  predicate Visible(c: char) {
    c == '\t' || (0x20 <= c as int && (c as int < 0x7f || 0x9f < c as int))
  }

  // How many of the first characters are shown.
  function Rank(s: string, n: nat): nat
    requires n <= |s|
  {
    if n == 0 then 0 else Rank(s, n - 1) + if Visible(s[n - 1]) then 1 else 0
  }

  // What is left of a line is exactly its characters that may be shown, each once and in order.
  lemma {:induction false} ShownInOrder(s: string, n: nat)
    requires n <= |s|
    ensures |ShownFirst(s, n)| == Rank(s, n)
    ensures forall i | 0 <= i < n && Visible(s[i]) :: Rank(s, i) < Rank(s, n) && ShownFirst(s, n)[Rank(s, i)] == s[i]
    ensures forall i | 0 <= i < Rank(s, n) :: Visible(ShownFirst(s, n)[i])
  {
    if n > 0 {
      ShownInOrder(s, n - 1);
    }
  }

  function RedactLine(line: string): string {
    if Marked(line) then "[REDACTED]" else WithoutControls(line)
  }

  // A line with a marker becomes the placeholder; any other keeps exactly what may be shown of it.
  // Neither holds a line break, so a redacted line is one line.
  lemma {:induction false} RedactedLine(line: string)
    ensures Marked(line) ==> RedactLine(line) == "[REDACTED]"
    ensures !Marked(line) ==> |RedactLine(line)| == Rank(line, |line|)
    ensures !Marked(line) ==> forall i | 0 <= i < |line| && Visible(line[i]) ::
              Rank(line, i) < Rank(line, |line|) && RedactLine(line)[Rank(line, i)] == line[i]
    ensures forall i | 0 <= i < |RedactLine(line)| :: Visible(RedactLine(line)[i]) && RedactLine(line)[i] != '\n'
  {
    ShownInOrder(line, |line|);
  }

  // The placeholder gives nothing to redact.
  lemma {:induction false} PlaceholderIsPlain()
    ensures !Marked("[REDACTED]")
  {
    var shown := Lower("[REDACTED]");
    assert shown == "[redacted]";
    forall i | 0 <= i < |MARKERS| ensures !Contains(shown, MARKERS[i]) {
      forall k | 0 <= k <= |shown| ensures !(MARKERS[i] <= shown[k..]) {
        StartsNoMarker(shown, i, k);
      }
    }
  }

  lemma {:induction false} StartsNoMarker(s: string, i: nat, k: nat)
    requires s == "[redacted]" && i < |MARKERS| && k <= |s|
    ensures !(MARKERS[i] <= s[k..])
  {
    var marker := MARKERS[i];
    assert |marker| >= 5;
    if k + 2 <= |s| {
      assert s[k..][0] == s[k] && s[k..][1] == s[k + 1];
      assert marker[0] != s[k] || marker[1] != s[k + 1];
    }
  }

  // A shown line holds a marker exactly when one appears only once its control characters are gone;
  // so no line without such characters is ever shown with a marker.
  lemma {:induction false} ShownWithMarker(line: string)
    ensures Marked(RedactLine(line)) <==> !Marked(line) && Marked(WithoutControls(line))
    ensures (forall i | 0 <= i < |line| :: Visible(line[i])) ==> !Marked(RedactLine(line))
  {
    PlaceholderIsPlain();
    if forall i | 0 <= i < |line| :: Visible(line[i]) {
      NothingToRemove(line, |line|);
      assert WithoutControls(line) == line[..|line|] == line;
    }
  }

  lemma {:induction false} NothingToRemove(s: string, n: nat)
    requires n <= |s| && forall i | 0 <= i < |s| :: Visible(s[i])
    ensures ShownFirst(s, n) == s[..n]
  {
    if n > 0 {
      NothingToRemove(s, n - 1);
    }
  }

  // There is such a line: a control character stands within the marker.
  lemma {:induction false} MarkerAppears()
    ensures RedactLine("tok\U{0001}en=x") == "token=x" && Marked(RedactLine("tok\U{0001}en=x"))
  {
    var line := "tok\U{0001}en=x";
    assert !Marked(line) by {
      var lower := Lower(line);
      assert lower == line;
      forall i | 0 <= i < |MARKERS| ensures !Contains(lower, MARKERS[i]) {
        forall k | 0 <= k <= |lower| ensures !(MARKERS[i] <= lower[k..]) {
          SplitsMarker(lower, i, k);
        }
      }
    }
    assert WithoutControls(line) == "token=x" by {
      SplitShown(line);
    }
    var shown := "token=x";
    assert Lower(shown) == shown && MARKERS[5] <= shown[0..];
    assert Contains(Lower(shown), MARKERS[5]);
  }

  lemma {:induction false} SplitsMarker(s: string, i: nat, k: nat)
    requires s == "tok\U{0001}en=x" && i < |MARKERS| && k <= |s|
    ensures !(MARKERS[i] <= s[k..])
  {
    var marker := MARKERS[i];
    assert |marker| >= 5;
    if k + 5 <= |s| {
      assert s[k..][0] == s[k] && s[k..][3 - Min(k, 3)] == s[k + 3 - Min(k, 3)];
      assert k <= 3 ==> s[k..][3 - k] == '\U{0001}';
    }
  }

  lemma {:induction false} SplitShown(line: string)
    requires line == "tok\U{0001}en=x"
    ensures ShownFirst(line, 8) == "token=x"
  {
    assert ShownFirst(line, 1) == "t";
    assert ShownFirst(line, 2) == "to";
    assert ShownFirst(line, 3) == "tok";
    assert ShownFirst(line, 4) == "tok";
    assert ShownFirst(line, 5) == "toke";
    assert ShownFirst(line, 6) == "token";
    assert ShownFirst(line, 7) == "token=";
  }

  // ---------- The redacted text, line by line ----------

  predicate NoNewline(s: string) {
    forall i | 0 <= i < |s| :: s[i] != '\n'
  }

  // Cut at every newline, a text is these parts: each stands where the one before and its newline end,
  // and the last goes to the end of the text.
  predicate SplitsAt(text: string, parts: seq<string>, starts: seq<nat>) {
    && |starts| == |parts| > 0 && starts[0] == 0
    && forall i | 0 <= i < |parts| :: PartStands(text, parts, starts, i)
  }

  predicate PartStands(text: string, parts: seq<string>, starts: seq<nat>, i: nat)
    requires i < |parts| == |starts|
  {
    PartAt(text, parts[i], starts[i], if i + 1 < |parts| then starts[i + 1] else |text| + 1)
  }

  // A part stands at a place, and the next one just after the newline that follows; `next` is one past the
  // end of the text for the last.
  predicate PartAt(text: string, part: string, from: nat, next: nat) {
    && NoNewline(part) && next == from + |part| + 1 && next <= |text| + 1
    && text[from..next - 1] == part && (next <= |text| ==> text[next - 1] == '\n')
  }

  ghost predicate Splits(text: string, parts: seq<string>) {
    exists starts :: SplitsAt(text, parts, starts)
  }

  // A line stands at a place in a text and goes up to another: without its newline, together with a
  // carriage return before it, or to the end of the text.
  predicate LineAt(text: string, line: string, from: nat, to: nat) {
    && from < to <= |text| && NoNewline(line)
    && (|| text[from..to] == line + "\r\n"
        || (text[from..to] == line + "\n" && (line == [] || line[|line| - 1] != '\r'))
        || (text[from..to] == line && to == |text|))
  }

  // A text is these lines, one after the other.
  predicate LinesAt(text: string, lines: seq<string>, ends: seq<nat>) {
    && |ends| == |lines| && (if lines == [] then text == [] else ends[|lines| - 1] == |text|)
    && forall i | 0 <= i < |lines| :: LineStands(text, lines, ends, i)
  }

  predicate LineStands(text: string, lines: seq<string>, ends: seq<nat>, i: nat)
    requires i < |lines| == |ends|
  {
    LineAt(text, lines[i], if i == 0 then 0 else ends[i - 1], ends[i])
  }

  ghost predicate HasLines(text: string, lines: seq<string>) {
    exists ends :: LinesAt(text, lines, ends)
  }

  // Letters are compared without regard to case.
  predicate SameLetter(c: char, letter: char) {
    c == letter || ('A' <= c <= 'Z' && c as int + 32 == letter as int)
  }

  ghost predicate Holds(line: string, word: string) {
    exists i | 0 <= i <= |line| - |word| :: HoldsAt(line, word, i)
  }

  predicate HoldsAt(line: string, word: string, i: nat)
    requires i + |word| <= |line|
  {
    forall k | 0 <= k < |word| :: SameLetter(line[i + k], word[k])
  }

  // A line that gives a secret away.
  ghost predicate Secret(line: string) {
    || Holds(line, "authorization") || Holds(line, "bearer") || Holds(line, "credential") || Holds(line, "jobcred")
    || Holds(line, "secret") || Holds(line, "token") || Holds(line, "private_key")
  }

  // What is shown of a line: the placeholder if it gives a secret away, and else its characters that may
  // be shown, each at the place its rank gives.
  ghost predicate ShownAs(line: string, shown: string) {
    if Secret(line) then shown == "[REDACTED]"
    else
      && |shown| == Rank(line, |line|)
      && forall i | 0 <= i < |line| && Visible(line[i]) ::
           Rank(line, i) < Rank(line, |line|) && shown[Rank(line, i)] == line[i]
  }

  // The log has one line for each line of the text, in order, and it shows what may be shown.
  ghost predicate Redacts(text: string, log: string) {
    exists lines, shown :: RedactsAs(text, log, lines, shown)
  }

  ghost predicate RedactsAs(text: string, log: string, lines: seq<string>, shown: seq<string>) {
    && HasLines(text, lines) && |shown| == |lines|
    && (if lines == [] then log == [] else Splits(log, shown))
    && forall i | 0 <= i < |lines| :: ShownAs(lines[i], shown[i])
  }

  predicate LowerWord(word: string) {
    forall k | 0 <= k < |word| :: 'a' <= word[k] <= 'z' || word[k] == '_'
  }

  lemma {:induction false} LowerMatches(line: string, word: string, i: nat)
    requires i <= |line| && LowerWord(word)
    ensures word <= Lower(line)[i..] <==>
      i + |word| <= |line| && HoldsAt(line, word, i)
  {
    var lower := Lower(line);
    if i + |word| <= |line| {
      forall k | 0 <= k < |word| ensures lower[i..][k] == word[k] <==> SameLetter(line[i + k], word[k]) {
        assert lower[i..][k] == lower[i + k];
      }
    }
  }

  lemma {:induction false} ContainsIsHolds(line: string, word: string)
    requires LowerWord(word)
    ensures Contains(Lower(line), word) <==> Holds(line, word)
  {
    if Contains(Lower(line), word) {
      var i :| 0 <= i <= |Lower(line)| && word <= Lower(line)[i..];
      LowerMatches(line, word, i);
      assert HoldsAt(line, word, i);
    }
    if Holds(line, word) {
      var i :| 0 <= i <= |line| - |word| && HoldsAt(line, word, i);
      LowerMatches(line, word, i);
    }
  }

  // The markers, word by word.
  lemma {:induction false} MarkedIsSecret(line: string)
    ensures Marked(line) <==> Secret(line)
  {
    forall i | 0 <= i < |MARKERS| ensures Contains(Lower(line), MARKERS[i]) <==> Holds(line, MARKERS[i]) {
      ContainsIsHolds(line, MARKERS[i]);
    }
    SecretIsAnyMarker(line);
  }

  function RedactLines(lines: seq<string>): seq<string> {
    seq(|lines|, i requires 0 <= i < |lines| => RedactLine(lines[i]))
  }

  // Lines with newlines between them.
  function Join(lines: seq<string>): string {
    if lines == [] then []
    else if |lines| == 1 then lines[0]
    else lines[0] + "\n" + Join(lines[1..])
  }

  function RedactLogText(s: string): string {
    Join(RedactLines(Lines(s)))
  }

  lemma {:induction false} RedactLineShows(line: string)
    ensures ShownAs(line, RedactLine(line)) && NoNewline(RedactLine(line))
  {
    MarkedIsSecret(line);
    RedactedLine(line);
  }

  // Joined lines, cut again.
  lemma {:induction false} JoinSplits(parts: seq<string>)
    requires parts != [] && forall i | 0 <= i < |parts| :: NoNewline(parts[i])
    ensures Splits(Join(parts), parts)
  {
    if |parts| == 1 {
      var text, starts: seq<nat> := Join(parts), [0];
      assert text == parts[0] && text[0..|text|] == text;
      assert PartStands(text, parts, starts, 0);
      assert SplitsAt(text, parts, starts);
    } else {
      var rest, text := Join(parts[1..]), Join(parts);
      JoinSplits(parts[1..]);
      var later :| SplitsAt(rest, parts[1..], later);
      JoinedStarts(parts, rest, text, later);
    }
  }

  lemma {:induction false} JoinedStarts(parts: seq<string>, rest: string, text: string, later: seq<nat>)
    requires |parts| > 1 && NoNewline(parts[0]) && text == parts[0] + "\n" + rest && SplitsAt(rest, parts[1..], later)
    ensures Splits(text, parts)
  {
    var shift := |parts[0]| + 1;
    var starts := [0] + seq(|later|, i requires 0 <= i < |later| => later[i] + shift);
    forall i | 0 <= i < |parts| ensures PartStands(text, parts, starts, i) {
      if i == 0 {
        assert text[0..|parts[0]|] == parts[0];
      } else {
        assert parts[i] == parts[1..][i - 1] && starts[i] == later[i - 1] + shift;
        var next := if i < |later| then later[i] else |rest| + 1;
        assert PartStands(rest, parts[1..], later, i - 1);
        PartShifts(text, rest, parts[i], later[i - 1], next, shift);
      }
    }
    assert SplitsAt(text, parts, starts);
  }

  lemma {:induction false} PartShifts(text: string, rest: string, part: string, from: nat, next: nat, shift: nat)
    requires shift <= |text| && text[shift..] == rest && PartAt(rest, part, from, next)
    ensures PartAt(text, part, from + shift, next + shift)
  {
    assert text[from + shift..next + shift - 1] == rest[from..next - 1];
  }

  // Where the first pieces end.
  lemma {:induction false} GlueGrows(pieces: seq<string>, m: nat, n: nat)
    requires m <= n <= |pieces|
    ensures Glue(pieces, m) <= Glue(pieces, n)
  {
    if m < n {
      GlueGrows(pieces, m, n - 1);
    }
  }

  lemma {:induction false} StripEndIsLine(text: string, piece: string, from: nat, to: nat)
    requires from < to <= |text| && text[from..to] == piece && OneLine(piece) && (EndsLine(piece) || to == |text|)
    ensures LineAt(text, StripEnd(piece), from, to)
  {
    var line := StripEnd(piece);
    if EndsLine(piece) {
      if |piece| > 1 && piece[|piece| - 2] == '\r' {
        assert piece == line + "\r\n";
      } else {
        assert piece == line + "\n";
      }
    }
  }

  lemma {:induction false} PieceStands(text: string, pieces: seq<string>, i: nat)
    requires i < |pieces| && Glue(pieces, |pieces|) == text && CutAtNewlines(pieces)
    ensures LineAt(text, StripEnd(pieces[i]), |Glue(pieces, i)|, |Glue(pieces, i + 1)|)
  {
    GlueGrows(pieces, i + 1, |pieces|);
    var from, to := |Glue(pieces, i)|, |Glue(pieces, i + 1)|;
    assert text[..to] == Glue(pieces, i + 1) == Glue(pieces, i) + pieces[i];
    assert text[from..to] == pieces[i];
    assert OneLine(pieces[i]);
    StripEndIsLine(text, pieces[i], from, to);
  }

  lemma {:induction false} LinesAreThere(text: string)
    ensures HasLines(text, Lines(text))
  {
    var pieces := Pieces(text, 0, |text|);
    PiecesOfText(text, |text|);
    assert text[..|text|] == text;
    PiecesAreLines(text, pieces, StripEnds(pieces));
  }

  lemma {:induction false} PiecesAreLines(text: string, pieces: seq<string>, lines: seq<string>)
    requires Glue(pieces, |pieces|) == text && CutAtNewlines(pieces)
    requires |lines| == |pieces| && forall i | 0 <= i < |lines| :: lines[i] == StripEnd(pieces[i])
    ensures HasLines(text, lines)
  {
    var ends := seq(|pieces|, i requires 0 <= i < |pieces| => |Glue(pieces, i + 1)|);
    forall i | 0 <= i < |lines| ensures LineStands(text, lines, ends, i) {
      PieceStands(text, pieces, i);
    }
    assert LinesAt(text, lines, ends);
  }

  // What redaction makes of any text.
  lemma {:induction false} RedactionIsLineByLine(text: string)
    ensures Redacts(text, RedactLogText(text))
  {
    var lines := Lines(text);
    var shown := RedactLines(lines);
    LinesAreThere(text);
    forall i | 0 <= i < |lines| ensures ShownAs(lines[i], shown[i]) && NoNewline(shown[i]) {
      RedactLineShows(lines[i]);
    }
    if lines != [] {
      JoinSplits(shown);
    }
    assert RedactsAs(text, RedactLogText(text), lines, shown);
  }

  // ---------- What is not given away ----------

  // The only control characters are tabs and line ends.
  predicate Plain(text: string) {
    forall i | 0 <= i < |text| ::
      Visible(text[i]) || text[i] == '\n' || (text[i] == '\r' && i + 1 < |text| && text[i + 1] == '\n')
  }

  lemma {:induction false} PlainSuffix(text: string, p: nat)
    requires p <= |text| && Plain(text)
    ensures Plain(text[p..])
  {
    var rest := text[p..];
    forall i | 0 <= i < |rest|
      ensures Visible(rest[i]) || rest[i] == '\n' || (rest[i] == '\r' && i + 1 < |rest| && rest[i + 1] == '\n')
    {
      assert rest[i] == text[p + i] && (i + 1 < |rest| ==> rest[i + 1] == text[p + i + 1]);
    }
  }

  lemma {:induction false} PlainLine(text: string, line: string, from: nat, to: nat)
    requires Plain(text) && LineAt(text, line, from, to)
    ensures forall i | 0 <= i < |line| :: Visible(line[i])
  {
    var piece := text[from..to];
    assert |line| <= |piece| && forall i | 0 <= i < |line| :: piece[i] == line[i];
    forall i | 0 <= i < |line| ensures Visible(line[i]) {
      assert line[i] == piece[i] == text[from + i];
      assert i + 1 < |piece| ==> piece[i + 1] == text[from + i + 1];
    }
  }

  // A stretch without a newline ends before the next one.
  lemma {:induction false} StaysBefore(text: string, i: nat, n: nat, end: nat)
    requires i <= end <= |text| && i + n <= |text| && (end < |text| ==> text[end] == '\n')
    requires forall k | i <= k < i + n :: text[k] != '\n'
    ensures i + n <= end
  {
    if n > 0 {
      StaysBefore(text, i, n - 1, end);
    }
  }

  // A word stands within one part of a text that is cut at its newlines.
  lemma {:induction false} WordInOnePart(text: string, parts: seq<string>, starts: seq<nat>,
                                         word: string, i: nat, k: nat)
    requires SplitsAt(text, parts, starts) && k < |parts| && i + |word| <= |text| && HoldsAt(text, word, i)
    requires word != [] && LowerWord(word)
    requires k + 1 < |parts| ==> i < starts[k + 1]
    ensures exists m | 0 <= m < |parts| :: Holds(parts[m], word)
  {
    var next := if k + 1 < |parts| then starts[k + 1] else |text| + 1;
    assert PartStands(text, parts, starts, k);
    if i < starts[k] {
      assert k > 0;
      WordInOnePart(text, parts, starts, word, i, k - 1);
    } else {
      var at := i - starts[k];
      forall k | i <= k < i + |word| ensures text[k] != '\n' {
        assert SameLetter(text[i + (k - i)], word[k - i]);
      }
      StaysBefore(text, i, |word|, next - 1);
      forall j | 0 <= j < |word| ensures SameLetter(parts[k][at + j], word[j]) {
        assert parts[k][at + j] == text[starts[k]..next - 1][at + j] == text[i + j];
      }
      assert HoldsAt(parts[k], word, at);
    }
  }

  lemma {:induction false} WordNowhere(text: string, parts: seq<string>, word: string)
    requires Splits(text, parts) && word != [] && LowerWord(word)
    requires forall m | 0 <= m < |parts| :: !Holds(parts[m], word)
    ensures !Holds(text, word)
  {
    if Holds(text, word) {
      var starts :| SplitsAt(text, parts, starts);
      var i :| 0 <= i <= |text| - |word| && HoldsAt(text, word, i);
      WordInOnePart(text, parts, starts, word, i, |parts| - 1);
    }
  }

  // Of a text whose only control characters are tabs and line ends, the log shows no marker at all.
  lemma {:induction false} PlainTextLeaksNothing(text: string)
    requires Plain(text)
    ensures !Secret(RedactLogText(text))
  {
    var lines := Lines(text);
    var shown := RedactLines(lines);
    if lines != [] {
      LinesAreThere(text);
      var ends :| LinesAt(text, lines, ends);
      forall m | 0 <= m < |shown| ensures NoNewline(shown[m]) && !Secret(shown[m]) {
        assert LineStands(text, lines, ends, m);
        PlainLine(text, lines[m], if m == 0 then 0 else ends[m - 1], ends[m]);
        RedactLineShows(lines[m]);
        ShownWithMarker(lines[m]);
        MarkedIsSecret(shown[m]);
      }
      JoinSplits(shown);
      NoSecretInParts(RedactLogText(text), shown);
    }
  }

  lemma {:induction false} NoSecretInParts(text: string, parts: seq<string>)
    requires Splits(text, parts) && forall m | 0 <= m < |parts| :: !Secret(parts[m])
    ensures !Secret(text)
  {
    forall i | 0 <= i < |MARKERS| ensures !Holds(text, MARKERS[i]) {
      forall m | 0 <= m < |parts| ensures !Holds(parts[m], MARKERS[i]) {
        SecretIsAnyMarker(parts[m]);
      }
      WordNowhere(text, parts, MARKERS[i]);
    }
    SecretIsAnyMarker(text);
  }

  lemma {:induction false} SecretIsAnyMarker(line: string)
    ensures Secret(line) <==> exists i | 0 <= i < |MARKERS| :: Holds(line, MARKERS[i])
  {
    assert Secret(line) <==>
      || Holds(line, MARKERS[0]) || Holds(line, MARKERS[1]) || Holds(line, MARKERS[2]) || Holds(line, MARKERS[3])
      || Holds(line, MARKERS[4]) || Holds(line, MARKERS[5]) || Holds(line, MARKERS[6]);
  }

  // ---------- The log ----------

  // How many lines go with a cut at a place: those before it, and of what follows the rest of a line
  // cut in two, or a whole line where the cut falls on a line start; all of them without a newline.
  function LinesDropped(text: string, cut: nat, truncated: bool): nat
    requires cut <= |text|
  {
    if !truncated then 0
    else if FirstNewline(text, cut) == |text| then |Lines(text)|
    else |Lines(text[..cut])| + if AtLineStart(text, cut) then 1 else 0
  }

  // A text has all lines of another but the first so many.
  ghost predicate LacksFirst(text: string, rest: string, n: nat) {
    exists dropped :: |dropped| == n && Lines(text) == dropped + Lines(rest)
  }

  lemma {:induction false} FirstNewlineShift(text: string, cut: nat, from: nat)
    requires cut + from <= |text|
    ensures FirstNewline(text, cut + from) == cut + FirstNewline(text[cut..], from)
    decreases |text| - from
  {
    if cut + from < |text| && text[cut + from] != '\n' {
      FirstNewlineShift(text, cut, from + 1);
    }
  }

  lemma {:induction false} PiecesOfPrefix(text: string, cut: nat, j: nat)
    requires j <= cut <= |text|
    ensures Pieces(text[..cut], 0, j) == Pieces(text, 0, j)
  {
    if j > 0 {
      PiecesOfPrefix(text, cut, j - 1);
    }
  }

  // Trimming loses exactly those lines.
  lemma {:induction false} TrimLoses(text: string, cut: nat, truncated: bool)
    requires cut <= |text| && (cut > 0 ==> truncated)
    ensures LacksFirst(text, DiscardPartialLeadingLine(text[cut..], truncated), LinesDropped(text, cut, truncated))
  {
    var n := FirstNewline(text, cut);
    FirstNewlineShift(text, cut, 0);
    var p := if !truncated then 0 else if n < |text| then n + 1 else |text|;
    assert DiscardPartialLeadingLine(text[cut..], truncated) == text[p..];
    var dropped := SuffixLines(text, p);
    if truncated && n < |text| {
      PiecesAlongLine(text, cut, p);
      PiecesOfPrefix(text, cut, cut);
    }
  }

  // From a cut on, a text is kept whole, or from just after the first newline, or not at all without one.
  predicate KeptFrom(text: string, cut: nat, truncated: bool, p: nat) {
    && cut <= p <= |text|
    && if !truncated then p == cut
       else
         || (p == |text| && NoNewline(text[cut..]))
         || (cut < p && text[p - 1] == '\n' && NoNewline(text[cut..p - 1]))
  }

  lemma {:induction false} DiscardingKeeps(text: string, cut: nat, truncated: bool) returns (p: nat)
    requires cut <= |text|
    ensures KeptFrom(text, cut, truncated, p) && text[p..] == DiscardPartialLeadingLine(text[cut..], truncated)
  {
    var tail := text[cut..];
    var n := FirstNewline(tail, 0);
    p := if !truncated then cut else if n < |tail| then cut + n + 1 else |text|;
    if truncated && n < |tail| {
      assert text[cut..p - 1] == tail[..n] && text[p - 1] == tail[n];
    }
  }

  datatype Trimmed = Trimmed(text: string, truncated: bool)

  // One stream of DockerContainerLogs::new before redaction, for every text.
  method Trim(text: string, flagged: bool) returns (t: Trimmed)
    ensures t.truncated <==> flagged || Bytes(text) > MAX_LOG_BYTES
    ensures exists cut | 0 <= cut <= |text| :: LongestFit(text, 65536, cut)
              && t.text == DiscardPartialLeadingLine(text[cut..], t.truncated)
              && LacksFirst(text, t.text, LinesDropped(text, cut, t.truncated))
    ensures exists cut, p | 0 <= cut <= p <= |text| ::
              LongestFit(text, 65536, cut) && KeptFrom(text, cut, t.truncated, p) && t.text == text[p..]
    ensures Bytes(text) <= MAX_LOG_BYTES ==> t.text == DiscardPartialLeadingLine(text, t.truncated)
  {
    var kept, shortened := BoundedTextTail(text, MAX_LOG_BYTES);
    ghost var cut :| 0 <= cut <= |text| && LongestFit(text, MAX_LOG_BYTES, cut) && kept == text[cut..];
    assert Bytes(text) <= MAX_LOG_BYTES ==> cut == 0 && kept == text;
    var truncated := flagged || shortened;
    TrimLoses(text, cut, truncated);
    ghost var p := DiscardingKeeps(text, cut, truncated);
    t := Trimmed(DiscardPartialLeadingLine(kept, truncated), truncated);
  }

  lemma {:induction false} AsciiTailIsLongestFit(full: string, limit: nat)
    requires Ascii(full)
    ensures LongestFit(full, limit, |full| - |Tail(full, limit)|)
    ensures Bytes(full) == |full| && Bytes(Tail(full, limit)) <= limit
  {
    AsciiSpan(full, 0, |full|);
    var tail := Tail(full, limit);
    AsciiSpan(tail, 0, |tail|);
    forall k | 0 <= k <= |full| - |tail|
      ensures Span(full, k, |full|) == |full| - k
    {
      AsciiSpan(full, k, |full|);
    }
  }

  // Of a stream, all is kept up to 64 KiB; of a longer one what follows the first newline of its last 64 KiB.
  predicate KeptOf(full: string, p: nat) {
    if |full| <= 65536 then p == 0 else KeptFrom(full, |full| - 65536, true, p)
  }

  lemma {:induction false} KeptIsKept(full: string, tail: string, truncated: bool)
    requires tail == Tail(full, MAX_LOG_BYTES) && (truncated <==> |full| > MAX_LOG_BYTES)
    ensures exists p | 0 <= p <= |full| :: KeptOf(full, p) && DiscardPartialLeadingLine(tail, truncated) == full[p..]
  {
    var cut := |full| - |tail|;
    assert tail == full[cut..];
    var p := DiscardingKeeps(full, cut, truncated);
    assert KeptOf(full, p);
  }

  // One read fills at most the buffer of 8 KiB it is given.
  predicate Buffered(input: seq<Reading>) {
    forall i | 0 <= i < |input| && input[i].Chunk? :: |input[i].bytes| <= 8192
  }

  // From the readings to the trimmed text, for ASCII output: the last 64 KiB of everything the
  // container wrote, or all of it, and of a longer stream what follows their first newline.
  method CollectText(input: seq<Reading>) returns (r: Option<Trimmed>)
    requires Buffered(input) && (Content(input).Some? ==> Ascii(Content(input).value))
    ensures r.None? <==> Content(input).None?
    ensures r.Some? ==>
              var full := Content(input).value;
              && (r.value.truncated <==> |full| > 65536)
              && r.value.text == DiscardPartialLeadingLine(Tail(full, MAX_LOG_BYTES), r.value.truncated)
              && (exists p | 0 <= p <= |full| :: KeptOf(full, p) && r.value.text == full[p..])
              && LacksFirst(
                   full, r.value.text, LinesDropped(full, |full| - |Tail(full, MAX_LOG_BYTES)|, r.value.truncated))
  {
    var bytes := ReadTailBounded(input, MAX_LOG_BYTES);
    if bytes.None? {
      return None;
    }
    var tail := bytes.value.kept;
    ghost var full := Content(input).value;
    ReadTailIsExact(input, MAX_LOG_BYTES);
    AsciiTailIsLongestFit(full, MAX_LOG_BYTES);
    var t := Trim(tail, bytes.value.truncated);
    TrimLoses(full, |full| - |tail|, t.truncated);
    KeptIsKept(full, tail, t.truncated);
    return Some(t);
  }

  datatype Log = Log(tail: string, truncated: bool)

  // The log is the line-by-line redaction of those lines.
  method CollectLog(input: seq<Reading>) returns (r: Option<Log>)
    requires Buffered(input) && (Content(input).Some? ==> Ascii(Content(input).value))
    ensures r.None? <==> Content(input).None?
    ensures r.Some? ==>
              var full := Content(input).value;
              && (r.value.truncated <==> |full| > 65536)
              && r.value.tail == RedactLogText(DiscardPartialLeadingLine(Tail(full, MAX_LOG_BYTES), r.value.truncated))
    // It has a line for each line kept, and shows of each what may be shown.
    ensures r.Some? ==>
              var full := Content(input).value;
              exists p | 0 <= p <= |full| :: KeptOf(full, p) && Redacts(full[p..], r.value.tail)
    ensures r.Some? && Plain(Content(input).value) ==> !Secret(r.value.tail)
  {
    var t := CollectText(input);
    if t.None? {
      return None;
    }
    ghost var full := Content(input).value;
    ghost var p :| 0 <= p <= |full| && KeptOf(full, p) && t.value.text == full[p..];
    RedactionIsLineByLine(full[p..]);
    if Plain(full) {
      PlainSuffix(full, p);
      PlainTextLeaksNothing(full[p..]);
    }
    return Some(Log(RedactLogText(t.value.text), t.value.truncated));
  }
}
