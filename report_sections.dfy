/** How the full-report page cuts the AI report into titled sections:
    `report.split(/\[(.*?)\]/)`, dropping blank pieces, then pairing the pieces
    as title/content. */
module ReportSections {

  import opened Wrappers

  /** A displayed section; `content` is `undefined` for a trailing lone title. */
  datatype Section = Section(title: string, content: Option<string>)

  /** The title shown while the report has no sections yet. */
  const Placeholder: string := "AI 智能测算中..."

  // ---- Characters ----

  /** ECMAScript line terminators: `.` in a regular expression does not match them. */
  predicate IsLineTerminator(c: char) {
    c == '\n' || c == '\r' || c == '\U{2028}' || c == '\U{2029}'
  }

  /** ECMAScript white space and line terminators: what `trim` removes. */
  predicate IsTrimmed(c: char) {
    || IsLineTerminator(c)
    || c == '\t' || c == '\U{000B}' || c == '\U{000C}' || c == ' ' || c == '\U{00A0}' || c == '\U{FEFF}'
    || c == '\U{1680}' || ('\U{2000}' <= c <= '\U{200A}') || c == '\U{202F}' || c == '\U{205F}' || c == '\U{3000}'
  }

  /** `s.trim()` is the empty string, so the piece is falsy after trimming. */
  predicate IsBlank(s: string) {
    forall k :: 0 <= k < |s| ==> IsTrimmed(s[k])
  }

  // ---- The regular-expression split ----

  /** From `q` on, the first `]` that `.*?]` can reach: none when a line
      terminator or the end of the text comes first. */
  function ScanClose(s: string, q: nat): (r: Option<nat>)
    ensures r.Some? ==> q <= r.value < |s| && s[r.value] == ']'
    ensures r.Some? ==> forall k :: q <= k < r.value ==> s[k] != ']' && !IsLineTerminator(s[k])
    ensures r.None? ==> forall c :: q <= c < |s| && s[c] == ']' ==> exists k :: q <= k < c && IsLineTerminator(s[k])
    decreases |s| - q
  {
    if q >= |s| then None
    else if s[q] == ']' then Some(q)
    else if IsLineTerminator(s[q]) then None
    else ScanClose(s, q + 1)
  }

  /** Whether `\[(.*?)\]` matches at `p`, and where its `]` is. */
  function MatchAt(s: string, p: nat): (r: Option<nat>)
    ensures r.Some? ==> p < r.value < |s|
  {
    if p < |s| && s[p] == '[' then ScanClose(s, p + 1) else None
  }

  /** The leftmost match at or after `p`: the positions of its `[` and its `]`. */
  function FindMatch(s: string, p: nat): (r: Option<(nat, nat)>)
    ensures r.Some? ==> p <= r.value.0 < r.value.1 < |s| && MatchAt(s, r.value.0) == Some(r.value.1)
    ensures r.Some? ==> forall k :: p <= k < r.value.0 ==> MatchAt(s, k).None?
    ensures r.None? ==> forall k :: p <= k ==> MatchAt(s, k).None?
    decreases |s| - p
  {
    if p >= |s| then None
    else if MatchAt(s, p).Some? then Some((p, MatchAt(s, p).value))
    else FindMatch(s, p + 1)
  }

  /** `s.split(/\[(.*?)\]/)`: the text between matches, with each match's captured
      title in between. */
  function Split(s: string): (parts: seq<string>)
    ensures |parts| % 2 == 1
    decreases |s|
  {
    match FindMatch(s, 0)
    case None => [s]
    case Some((open, close)) => [s[..open], s[open + 1..close]] + Split(s[close + 1..])
  }

  /** Puts split pieces back together, restoring the brackets around each title. */
  function Join(parts: seq<string>): string
    requires |parts| % 2 == 1
    decreases |parts|
  {
    if |parts| == 1 then parts[0]
    else parts[0] + "[" + parts[1] + "]" + Join(parts[2..])
  }

  /** Splitting loses nothing: joining the pieces gives the text back. */
  lemma {:induction false} SplitJoin(s: string)
    ensures Join(Split(s)) == s
    decreases |s|
  {
    match FindMatch(s, 0)
    case None =>
    case Some((open, close)) =>
      SplitJoin(s[close + 1..]);
      var parts := Split(s);
      assert parts[2..] == Split(s[close + 1..]);
      assert s == s[..open] + "[" + s[open + 1..close] + "]" + s[close + 1..];
  }

  /** A text `(.*?)` can capture before a `]`: no `]` and no line terminator. */
  predicate IsTitle(t: string) {
    forall k :: 0 <= k < |t| ==> t[k] != ']' && !IsLineTerminator(t[k])
  }

  /** Every odd-numbered piece, the captured ones, is a possible title. */
  ghost predicate Titled(parts: seq<string>) {
    forall i :: 0 <= i < |parts| && i % 2 == 1 ==> IsTitle(parts[i])
  }

  lemma TitlesCons(a: string, t: string, rest: seq<string>)
    requires IsTitle(t) && Titled(rest)
    ensures Titled([a, t] + rest)
  {
    var parts := [a, t] + rest;
    forall i | 0 <= i < |parts| && i % 2 == 1 ensures IsTitle(parts[i]) {
      if i > 1 {
        assert parts[i] == rest[i - 2];
      }
    }
  }

  /** Every captured title is free of `]` and of line terminators. */
  lemma {:induction false} SplitTitles(s: string)
    ensures Titled(Split(s))
    decreases |s|
  {
    match FindMatch(s, 0)
    case None =>
    case Some((open, close)) =>
      SplitTitles(s[close + 1..]);
      var t := s[open + 1..close];
      forall k | 0 <= k < |t| ensures t[k] != ']' && !IsLineTerminator(t[k]) {
        assert t[k] == s[open + 1 + k];
      }
      TitlesCons(s[..open], t, Split(s[close + 1..]));
  }

  // ---- Filtering and pairing ----

  /** `.filter(s => s.trim())`: the kept pieces are the non-blank ones, each of
      them kept; `NonBlankAppend` adds that they stay in order. */
  function NonBlank(parts: seq<string>): (r: seq<string>)
    ensures |r| <= |parts|
    ensures forall k :: 0 <= k < |r| ==> !IsBlank(r[k]) && r[k] in parts
    ensures forall k :: 0 <= k < |parts| && !IsBlank(parts[k]) ==> parts[k] in r
  {
    if parts == [] then []
    else if IsBlank(parts[0]) then NonBlank(parts[1..])
    else [parts[0]] + NonBlank(parts[1..])
  }

  /** The filter works piece by piece: filtering two runs of pieces one after
      the other gives the filtered first run followed by the filtered second. */
  lemma {:induction false} NonBlankAppend(a: seq<string>, b: seq<string>)
    ensures NonBlank(a + b) == NonBlank(a) + NonBlank(b)
    decreases |a|
  {
    if a == [] {
      assert a + b == b;
    } else {
      assert (a + b)[0] == a[0];
      assert (a + b)[1..] == a[1..] + b;
      NonBlankAppend(a[1..], b);
      if !IsBlank(a[0]) {
        AppendAssoc([a[0]], NonBlank(a[1..]), NonBlank(b));
      }
    }
  }

  /** `sections[j]`: `undefined` past the end. */
  function PieceAt(parts: seq<string>, j: nat): Option<string> {
    if j < |parts| then Some(parts[j]) else None
  }

  /** Pieces 0, 2, 4, ... become titles, each followed by the next piece as its content. */
  function Pair(parts: seq<string>): (secs: seq<Section>)
    ensures |secs| == (|parts| + 1) / 2
    decreases |parts|
  {
    if parts == [] then []
    else [Section(parts[0], PieceAt(parts, 1))] + Pair(if |parts| < 2 then [] else parts[2..])
  }

  /** Section `j` is titled by piece `2j` and holds piece `2j + 1`, if any. */
  lemma {:induction false} PairAt(parts: seq<string>, j: nat)
    requires j < (|parts| + 1) / 2
    ensures Pair(parts)[j] == Section(parts[2 * j], PieceAt(parts, 2 * j + 1))
    decreases |parts|
  {
    if j > 0 {
      PairAt(parts[2..], j - 1);
      assert parts[2..][2 * (j - 1)] == parts[2 * j];
      assert PieceAt(parts[2..], 2 * (j - 1) + 1) == PieceAt(parts, 2 * j + 1);
    }
  }

  /** The pieces a list of sections was paired from, in order. */
  function Unpair(secs: seq<Section>): seq<string> {
    if secs == [] then []
    else [secs[0].title] + (match secs[0].content case Some(c) => [c] case None => []) + Unpair(secs[1..])
  }

  /** Pairing loses no piece. */
  lemma {:induction false} UnpairPair(parts: seq<string>)
    ensures Unpair(Pair(parts)) == parts
    decreases |parts|
  {
    if |parts| >= 2 {
      UnpairPair(parts[2..]);
      assert Pair(parts)[1..] == Pair(parts[2..]);
      assert parts == [parts[0], parts[1]] + parts[2..];
    } else if |parts| == 1 {
      assert Pair(parts)[1..] == [];
    }
  }

  /** The sections the full-report page shows for `report`. */
  function Sections(report: string): seq<Section> {
    var pieces := NonBlank(Split(report));
    if |pieces| > 1 then Pair(pieces)
    else if report != "" then [Section(Placeholder, Some(report))]
    else []
  }

  /** `pieces[i..]`, empty once `i` has passed the end. */
  function Drop(pieces: seq<string>, i: nat): seq<string> {
    if i <= |pieces| then pieces[i..] else []
  }

  /** One step of the pairing loop: the pieces from `i` on pair into the section
      at `i` followed by the pairs from `i + 2` on. */
  lemma PairDrop(pieces: seq<string>, i: nat)
    requires i < |pieces|
    ensures Pair(Drop(pieces, i)) == [Section(pieces[i], PieceAt(pieces, i + 1))] + Pair(Drop(pieces, i + 2))
  {
    var x := Drop(pieces, i);
    assert x[0] == pieces[i];
    assert PieceAt(x, 1) == PieceAt(pieces, i + 1);
    if |x| >= 2 {
      assert x[2..] == Drop(pieces, i + 2);
    }
  }

  lemma AppendAssoc<T>(a: seq<T>, b: seq<T>, c: seq<T>)
    ensures (a + b) + c == a + (b + c)
  {
  }

  /** The `for` loop over the pieces, two at a time, that fills `formattedSections`. */
  method PairPieces(sections: seq<string>) returns (formatted: seq<Section>)
    ensures formatted == Pair(sections)
  {
    formatted := [];
    var i := 0;
    while i < |sections|
      invariant i <= |sections| + 1
      invariant formatted + Pair(Drop(sections, i)) == Pair(sections)
      decreases |sections| - i
    {
      PairDrop(sections, i);
      var sec := Section(sections[i], PieceAt(sections, i + 1));
      AppendAssoc(formatted, [sec], Pair(Drop(sections, i + 2)));
      formatted := formatted + [sec];
      i := i + 2;
    }
    assert Drop(sections, i) == [];
  }

  /** Building `formattedSections` for `report`. */
  method FormatSections(report: string) returns (formatted: seq<Section>)
    ensures formatted == Sections(report)
  {
    var sections := NonBlank(Split(report));
    formatted := [];
    if |sections| > 1 {
      formatted := PairPieces(sections);
    } else if report != "" {
      formatted := formatted + [Section(Placeholder, Some(report))];
    }
  }

  // ---- Reports written as "[title]content" blocks ----

  /** A section the report writer can round-trip: a non-blank title without `]`
      or line breaks, and non-blank content without `[`. */
  predicate WellFormed(sec: Section) {
    && sec.content.Some?
    && !IsBlank(sec.title) && !IsBlank(sec.content.value)
    && (forall k :: 0 <= k < |sec.title| ==> sec.title[k] != ']' && !IsLineTerminator(sec.title[k]))
    && (forall k :: 0 <= k < |sec.content.value| ==> sec.content.value[k] != '[')
  }

  /** The report text `[title]content[title]content...`. */
  function Render(secs: seq<Section>): string {
    if secs == [] then ""
    else "[" + secs[0].title + "]" + (match secs[0].content case Some(c) => c case None => "") + Render(secs[1..])
  }

  /** The scan for `]` stops exactly at the first one when no line break comes first. */
  lemma {:induction false} ScanCloseFinds(s: string, q: nat, c: nat)
    requires q <= c < |s| && s[c] == ']'
    requires forall k :: q <= k < c ==> s[k] != ']' && !IsLineTerminator(s[k])
    ensures ScanClose(s, q) == Some(c)
    decreases c - q
  {
    if q < c {
      ScanCloseFinds(s, q + 1, c);
    }
  }

  /** The leftmost match in `c[t]...`, when `c` has no `[` and `t` no `]` or line
      break, is the one around `t`. */
  lemma FindMatchBlock(c: string, t: string, after: string)
    requires forall k :: 0 <= k < |c| ==> c[k] != '['
    requires forall k :: 0 <= k < |t| ==> t[k] != ']' && !IsLineTerminator(t[k])
    ensures FindMatch(c + "[" + t + "]" + after, 0) == Some((|c|, |c| + 1 + |t|))
  {
    var s := c + "[" + t + "]" + after;
    forall k | 0 <= k < |c| ensures MatchAt(s, k).None? {
      assert s[k] == c[k];
    }
    var close := |c| + 1 + |t|;
    forall k | |c| + 1 <= k < close ensures s[k] != ']' && !IsLineTerminator(s[k]) {
      assert s[k] == t[k - |c| - 1];
    }
    ScanCloseFinds(s, |c| + 1, close);
    assert s[|c|] == '[';
    assert MatchAt(s, |c|) == Some(close);
    var r := FindMatch(s, 0);
    assert r.Some? && r.value.0 == |c|;
  }

  /** Splitting `c[t]after` gives `c` and `t`, then the pieces of `after`. */
  lemma SplitBlock(c: string, t: string, after: string)
    requires forall k :: 0 <= k < |c| ==> c[k] != '['
    requires forall k :: 0 <= k < |t| ==> t[k] != ']' && !IsLineTerminator(t[k])
    ensures Split(c + "[" + t + "]" + after) == [c, t] + Split(after)
  {
    FindMatchBlock(c, t, after);
    BlockSlices(c, t, after);
  }

  /** The three parts of `c[t]after` cut out by position. */
  lemma BlockSlices(c: string, t: string, after: string)
    ensures var s, close := c + "[" + t + "]" + after, |c| + 1 + |t|;
      s[..|c|] == c && s[|c| + 1..close] == t && s[close + 1..] == after
  {
    var s, close := c + "[" + t + "]" + after, |c| + 1 + |t|;
    assert s[..|c|] == c;
    assert s[|c| + 1..close] == t;
    assert s[close + 1..] == after;
  }

  /** Splitting text without `[` gives the text itself. */
  lemma SplitPlain(c: string)
    requires forall k :: 0 <= k < |c| ==> c[k] != '['
    ensures Split(c) == [c]
  {
    forall k: nat ensures MatchAt(c, k).None? {
      if k < |c| {
        assert c[k] != '[';
      }
    }
  }

  /** Rendering a non-empty list: the first block, then the rest. */
  lemma RenderCons(c: string, secs: seq<Section>)
    requires secs != [] && secs[0].content.Some?
    ensures c + Render(secs) == c + "[" + secs[0].title + "]" + (secs[0].content.value + Render(secs[1..]))
  {
    var t, b, r := secs[0].title, secs[0].content.value, Render(secs[1..]);
    assert Render(secs) == "[" + t + "]" + b + r;
    Regroup6(c, "[", t, "]", b, r);
  }

  lemma Regroup6<T>(c: seq<T>, o: seq<T>, t: seq<T>, e: seq<T>, b: seq<T>, r: seq<T>)
    ensures c + (o + t + e + b + r) == c + o + t + e + (b + r)
  {
  }

  lemma UnpairCons(secs: seq<Section>)
    requires secs != [] && secs[0].content.Some?
    ensures Unpair(secs) == [secs[0].title, secs[0].content.value] + Unpair(secs[1..])
  {
  }

  lemma ConsPieces(c: string, t: string, body: string, u: seq<string>)
    ensures [c, t] + ([body] + u) == [c] + ([t, body] + u)
  {
  }

  /** Splitting `c` followed by rendered sections gives `c`, then each title and
      content in turn. */
  lemma {:induction false} SplitRendered(c: string, secs: seq<Section>)
    requires forall k :: 0 <= k < |c| ==> c[k] != '['
    requires forall j :: 0 <= j < |secs| ==> WellFormed(secs[j])
    ensures Split(c + Render(secs)) == [c] + Unpair(secs)
    decreases |secs|
  {
    if secs == [] {
      assert c + Render(secs) == c;
      SplitPlain(c);
    } else {
      assert WellFormed(secs[0]);
      var t, body := secs[0].title, secs[0].content.value;
      var rest := Render(secs[1..]);
      RenderCons(c, secs);
      SplitBlock(c, t, body + rest);
      SplitRendered(body, secs[1..]);
      UnpairCons(secs);
      ConsPieces(c, t, body, Unpair(secs[1..]));
    }
  }

  /** Dropping blank pieces keeps a list of non-blank pieces as it is. */
  lemma {:induction false} NonBlankKeeps(parts: seq<string>)
    requires forall k :: 0 <= k < |parts| ==> !IsBlank(parts[k])
    ensures NonBlank(parts) == parts
  {
    if parts != [] {
      NonBlankKeeps(parts[1..]);
    }
  }

  /** Sections that all hold content pair back from their pieces. */
  lemma {:induction false} PairUnpair(secs: seq<Section>)
    requires forall j :: 0 <= j < |secs| ==> secs[j].content.Some?
    ensures Pair(Unpair(secs)) == secs
  {
    if secs != [] {
      PairUnpair(secs[1..]);
      UnpairCons(secs);
      var f, u := Unpair(secs), Unpair(secs[1..]);
      assert f[2..] == u;
      assert Pair(f) == [secs[0]] + Pair(u);
      assert secs == [secs[0]] + secs[1..];
    }
  }

  /** Well-formed sections unpair into twice as many pieces, none blank. */
  lemma {:induction false} UnpairPieces(secs: seq<Section>)
    requires forall j :: 0 <= j < |secs| ==> WellFormed(secs[j])
    ensures |Unpair(secs)| == 2 * |secs|
    ensures forall k :: 0 <= k < |Unpair(secs)| ==> !IsBlank(Unpair(secs)[k])
  {
    if secs != [] {
      UnpairPieces(secs[1..]);
      UnpairCons(secs);
      var f, u := Unpair(secs), Unpair(secs[1..]);
      assert WellFormed(secs[0]);
      forall k | 2 <= k < |f| ensures !IsBlank(f[k]) {
        assert f[k] == u[k - 2];
      }
    }
  }

  /** Well-formed sections unpair into twice as many non-blank pieces, which pair
      back into the same sections. */
  lemma UnpairWellFormed(secs: seq<Section>)
    requires forall j :: 0 <= j < |secs| ==> WellFormed(secs[j])
    ensures |Unpair(secs)| == 2 * |secs|
    ensures forall k :: 0 <= k < |Unpair(secs)| ==> !IsBlank(Unpair(secs)[k])
    ensures Pair(Unpair(secs)) == secs
  {
    UnpairPieces(secs);
    PairUnpair(secs);
  }

  /** A blank first piece is dropped. */
  lemma NonBlankBlankHead(p: string, rest: seq<string>)
    requires IsBlank(p)
    ensures NonBlank([p] + rest) == NonBlank(rest)
  {
    assert ([p] + rest)[1..] == rest;
  }

  /** The kept pieces of a rendered report are its titles and contents in order. */
  lemma RenderedPieces(secs: seq<Section>)
    requires forall j :: 0 <= j < |secs| ==> WellFormed(secs[j])
    ensures NonBlank(Split(Render(secs))) == Unpair(secs)
  {
    SplitRendered("", secs);
    assert "" + Render(secs) == Render(secs);
    UnpairWellFormed(secs);
    NonBlankKeeps(Unpair(secs));
    NonBlankBlankHead("", Unpair(secs));
  }

  /** A report written as well-formed `[title]content` blocks is shown as exactly
      those sections. */
  lemma RenderedSections(secs: seq<Section>)
    requires |secs| > 0 && forall j :: 0 <= j < |secs| ==> WellFormed(secs[j])
    ensures Sections(Render(secs)) == secs
  {
    RenderedPieces(secs);
    UnpairWellFormed(secs);
  }

  /** Splitting `[t]x[]y`: the empty brackets are a match like any other, so
      their empty title becomes a piece of its own. */
  lemma BlankTitleSplit(t: string, x: string, y: string)
    requires forall k :: 0 <= k < |t| ==> t[k] != ']' && !IsLineTerminator(t[k])
    requires forall k :: 0 <= k < |x| ==> x[k] != '['
    requires forall k :: 0 <= k < |y| ==> y[k] != '['
    ensures Split("[" + t + "]" + x + "[]" + y) == ["", t, x, "", y]
  {
    var head, tail := "[" + t + "]", x + "[]" + y;
    Regroup(head, x, y);
    SplitOpening(t, tail);
    SplitEmptyBrackets(x, y);
    SplitPlain(y);
    FivePieces("", t, x, "", y);
  }

  lemma FivePieces<T>(a: T, b: T, c: T, d: T, e: T)
    ensures [a, b] + ([c, d] + [e]) == [a, b, c, d, e]
  {
  }

  /** A text that opens with `[t]`. */
  lemma SplitOpening(t: string, after: string)
    requires forall k :: 0 <= k < |t| ==> t[k] != ']' && !IsLineTerminator(t[k])
    ensures Split("[" + t + "]" + after) == ["", t] + Split(after)
  {
    assert "" + "[" == "[";
    SplitBlock("", t, after);
  }

  /** Empty brackets after text without `[`. */
  lemma SplitEmptyBrackets(x: string, after: string)
    requires forall k :: 0 <= k < |x| ==> x[k] != '['
    ensures Split(x + "[]" + after) == [x, ""] + Split(after)
  {
    assert x + "[" + "" + "]" == x + "[]";
    SplitBlock(x, "", after);
  }

  lemma Regroup(head: string, x: string, y: string)
    ensures head + x + "[]" + y == head + (x + "[]" + y)
  {
    AppendAssoc(head + x, "[]", y);
    AppendAssoc(head, x, "[]" + y);
    AppendAssoc(x, "[]", y);
  }

  /** Dropping the blank pieces of `["", t, x, "", y]`. */
  lemma BlankTitleFilter(t: string, x: string, y: string)
    requires !IsBlank(t) && !IsBlank(x) && !IsBlank(y)
    ensures NonBlank(["", t, x, "", y]) == [t, x, y]
  {
    assert IsBlank("");
    var pieces := ["", t, x, "", y];
    assert pieces[4..] == [y] && pieces[3..] == [""] + [y];
    assert NonBlank([y]) == [y];
    assert NonBlank(pieces[3..]) == [y];
    assert NonBlank(pieces[2..]) == [x, y];
    assert NonBlank(pieces[1..]) == [t, x, y];
  }

  /** A blank title is dropped with the other blank pieces, so every later piece
      changes role: the content after it becomes a title, and that title has no
      content. */
  lemma BlankTitleShiftsPairs(t: string, x: string, y: string)
    requires WellFormed(Section(t, Some(x)))
    requires !IsBlank(y) && forall k :: 0 <= k < |y| ==> y[k] != '['
    ensures Sections("[" + t + "]" + x + "[]" + y) == [Section(t, Some(x)), Section(y, None)]
  {
    BlankTitleSplit(t, x, y);
    BlankTitleFilter(t, x, y);
    var pieces := [t, x, y];
    PairAt(pieces, 0);
    PairAt(pieces, 1);
    assert |Pair(pieces)| == 2;
    assert Pair(pieces) == [Pair(pieces)[0], Pair(pieces)[1]];
  }
}
