/**
 * The scraper's text cleanup: starting from the text the HTML parser extracted (one line per
 * element), strip each line, cut it at every double space, strip each piece, drop the empty
 * pieces, join the rest with newlines, and keep at most 8000 characters. A fetch failure is turned
 * into an error string: the scraper never raises.
 */
module Browser {
  import opened Wrappers
  import opened Text

  /** Length cap on the returned text. */
  const MaxLength: nat := 8000

  /** A cleaned output line: non-empty, no surrounding whitespace, no line break, no double space. */
  ghost predicate IsChunk(c: string)
  {
    c != [] && !IsPySpace(c[0]) && !IsPySpace(c[|c| - 1]) && NoLineBreak(c) && NoDoubleSpace(c)
  }

  /** Each phrase stripped, the empty ones dropped, order kept. */
  function KeepStripped(phrases: seq<string>): seq<string>
  {
    if phrases == [] then [] else Kept(phrases[0]) + KeepStripped(phrases[1..])
  }

  /** One phrase stripped, or nothing when it is blank. */
  function Kept(phrase: string): seq<string>
  {
    var c := PyStrip(phrase);
    if c == [] then [] else [c]
  }

  /** The chunks one raw line contributes. */
  function LineChunks(line: string): seq<string>
  {
    KeepStripped(SplitDoubleSpace(PyStrip(line)))
  }

  /** The chunks of all lines, in line order. */
  function Chunks(lines: seq<string>): seq<string>
  {
    if lines == [] then [] else LineChunks(lines[0]) + Chunks(lines[1..])
  }

  /** The cleaned text before truncation. */
  function CleanText(text: string): string
  {
    Join(Chunks(SplitLines(text)), "\n")
  }

  /** The text `scrape_url` returns for a page whose extracted text is `text`. */
  function ScrapeText(text: string): (r: string)
    ensures |r| <= MaxLength && |r| <= |CleanText(text)|
    ensures r == CleanText(text)[..|r|]
    ensures |CleanText(text)| <= MaxLength ==> r == CleanText(text)
    ensures |CleanText(text)| > MaxLength ==> |r| == MaxLength
  {
    var t := CleanText(text);
    if |t| <= MaxLength then t else t[..MaxLength]
  }

  /**
   * `scrape_url(url)`, given the outcome of fetching and parsing the page: the extracted text
   * on success, the exception's message on failure. It always returns a string.
   */
  function ScrapeUrl(url: string, page: Result<string, string>): (r: string)
    ensures page.Ok? ==> |r| <= MaxLength
    ensures page.Err? ==> StartsWith(r, ErrorPrefix(url)) && r[|ErrorPrefix(url)|..] == page.error
  {
    match page
    case Ok(text) => ScrapeText(text)
    case Err(msg) =>
      var r := ErrorPrefix(url) + msg;
      assert r[..|ErrorPrefix(url)|] == ErrorPrefix(url);
      r
  }

  /** The text every failure message starts with. */
  function ErrorPrefix(url: string): string
  {
    "Error scraping " + url + ": "
  }

  // ---------------------------------------------------------------------------------------------
  // Shape of the cleaned text
  // ---------------------------------------------------------------------------------------------

  /** A slice keeps the absence of line breaks and of double spaces. */
  lemma SliceKeeps(s: string, a: nat, b: nat)
    requires a <= b <= |s|
    ensures NoLineBreak(s) ==> NoLineBreak(s[a..b])
    ensures NoDoubleSpace(s) ==> NoDoubleSpace(s[a..b])
  {
    if NoDoubleSpace(s) {
      forall i ensures !DoubleSpaceAt(s[a..b], i) {
        assert DoubleSpaceAt(s[a..b], i) ==> DoubleSpaceAt(s, a + i);
      }
    }
  }

  /** Stripping keeps the absence of line breaks and of double spaces. */
  lemma {:induction false} StripKeeps(s: string)
    ensures NoLineBreak(s) ==> NoLineBreak(PyStrip(s))
    ensures NoDoubleSpace(s) ==> NoDoubleSpace(PyStrip(s))
  {
    var r := Strip(s, IsPySpace);
    var off := StripOffset(s, IsPySpace);
    assert PyStrip(s) == r == s[off..off + |r|];
    SliceKeeps(s, off, off + |r|);
  }

  /** The double-space pieces of a line are lines themselves. */
  lemma {:induction false} SplitDoubleSpaceKeeps(s: string)
    requires NoLineBreak(s)
    ensures forall i :: 0 <= i < |SplitDoubleSpace(s)| ==> NoLineBreak(SplitDoubleSpace(s)[i])
    decreases |s|
  {
    var k := FirstDoubleSpace(s);
    if k < |s| {
      SliceKeeps(s, 0, k);
      SliceKeeps(s, k + 2, |s|);
      SplitDoubleSpaceKeeps(s[k + 2..]);
    }
  }

  /** Every element KeepStripped returns is a chunk, provided the phrases are clean lines. */
  lemma {:induction false} KeepStrippedChunks(phrases: seq<string>)
    requires forall i :: 0 <= i < |phrases| ==> NoLineBreak(phrases[i]) && NoDoubleSpace(phrases[i])
    ensures forall i :: 0 <= i < |KeepStripped(phrases)| ==> IsChunk(KeepStripped(phrases)[i])
  {
    if phrases != [] {
      StripKeeps(phrases[0]);
      KeepStrippedChunks(phrases[1..]);
    }
  }

  /** Every chunk of a line is a chunk. */
  lemma LineChunksWellFormed(line: string)
    requires NoLineBreak(line)
    ensures forall i :: 0 <= i < |LineChunks(line)| ==> IsChunk(LineChunks(line)[i])
  {
    StripKeeps(line);
    SplitDoubleSpaceKeeps(PyStrip(line));
    KeepStrippedChunks(SplitDoubleSpace(PyStrip(line)));
  }

  /** Every chunk of a sequence of lines is a chunk. */
  lemma {:induction false} ChunksWellFormed(lines: seq<string>)
    requires forall i :: 0 <= i < |lines| ==> NoLineBreak(lines[i])
    ensures forall i :: 0 <= i < |Chunks(lines)| ==> IsChunk(Chunks(lines)[i])
  {
    if lines != [] {
      LineChunksWellFormed(lines[0]);
      ChunksWellFormed(lines[1..]);
    }
  }

  /**
   * The cleaned text, read back as lines, is exactly its chunks: no line is empty, none has
   * leading or trailing whitespace, and none contains a double space.
   */
  lemma CleanTextLines(text: string)
    ensures SplitLines(CleanText(text)) == Chunks(SplitLines(text))
    ensures forall i :: 0 <= i < |SplitLines(CleanText(text))| ==> IsChunk(SplitLines(CleanText(text))[i])
  {
    var cs := Chunks(SplitLines(text));
    ChunksWellFormed(SplitLines(text));
    SplitLinesOfJoin(cs);
  }

  // ---------------------------------------------------------------------------------------------
  // Order and idempotence
  // ---------------------------------------------------------------------------------------------

  /** Lines are cleaned independently and their chunks keep the order of the lines. */
  lemma {:induction false} ChunksAppend(a: seq<string>, b: seq<string>)
    ensures Chunks(a + b) == Chunks(a) + Chunks(b)
  {
    if a != [] {
      var h, t := a[0], a[1..];
      assert a == [h] + t;
      assert a + b == [h] + (t + b);
      ChunksAppend(t, b);
      ChunksCons(h, t);
      ChunksCons(h, t + b);
    } else {
      assert a + b == b;
    }
  }

  /** Unfolding Chunks once. */
  lemma ChunksCons(h: string, t: seq<string>)
    ensures Chunks([h] + t) == LineChunks(h) + Chunks(t)
  {
    assert ([h] + t)[1..] == t;
  }

  /** A chunk is its own only chunk. */
  lemma LineChunksOfChunk(c: string)
    requires IsChunk(c)
    ensures LineChunks(c) == [c]
  {
    StripFixed(c, IsPySpace);
    SplitDoubleSpaceNone(c);
    StripFixed(c, IsPySpace);
    assert KeepStripped([c]) == [c] + KeepStripped([]);
  }

  /** Cleaning lines that are already chunks changes nothing. */
  lemma {:induction false} ChunksOfChunks(cs: seq<string>)
    requires forall i :: 0 <= i < |cs| ==> IsChunk(cs[i])
    ensures Chunks(cs) == cs
  {
    if cs != [] {
      var h, t := cs[0], cs[1..];
      assert cs == [h] + t;
      ChunksCons(h, t);
      LineChunksOfChunk(h);
      ChunksOfChunks(t);
    }
  }

  /** Cleaning the untruncated output again returns it unchanged. */
  lemma CleanTextIdempotent(text: string)
    ensures CleanText(CleanText(text)) == CleanText(text)
  {
    var cs := Chunks(SplitLines(text));
    CleanTextLines(text);
    ChunksOfChunks(cs);
  }
}
