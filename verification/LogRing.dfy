/** The in-memory log: a ring of the last lines, read back in pages. */
module LogRing {

  const BUFF_LINES := 500
  const MAX_LINES := 50

  function Min(a: int, b: int): int { if a < b then a else b }
  function Max(a: int, b: int): int { if a > b then a else b }
  function CeilDiv(a: nat, b: nat): nat
    requires b > 0
  {
    (a + b - 1) / b
  }

  /** The lines the ring still holds: the last 500 of everything logged. */
  function Window(all: seq<string>): seq<string> {
    all[Max(0, |all| - BUFF_LINES)..]
  }

  /** Page `k` of `w`, counted back from the newest lines; the oldest page may be short. */
  function Page(w: seq<string>, lines: nat, k: nat): seq<string>
    requires lines > 0 && k * lines <= |w|
  {
    w[Max(0, |w| - k * lines - lines)..|w| - k * lines]
  }

  function Pages(w: seq<string>, lines: nat): nat
    requires lines > 0
  {
    CeilDiv(|w|, lines)
  }

  lemma PageStartsInside(n: nat, lines: nat, k: nat)
    requires lines > 0 && k < CeilDiv(n, lines)
    ensures k * lines < n
  {
    var p := CeilDiv(n, lines);
    CeilDivBounds(n, lines);
    MulMonotone(k + 1, p, lines);
    MulSuccessor(k, lines);
  }

  /** Just enough pages: one less would not hold all the lines. */
  lemma CeilDivBounds(n: nat, lines: nat)
    requires lines > 0
    ensures n <= CeilDiv(n, lines) * lines <= n + lines - 1
  {
    var q := (n + lines - 1) / lines;
    assert n + lines - 1 == q * lines + (n + lines - 1) % lines;
  }

  lemma MulMonotone(a: nat, b: nat, m: nat)
    requires a <= b
    ensures a * m <= b * m
  {}

  lemma MulSuccessor(k: nat, m: nat)
    ensures (k + 1) * m == k * m + m
  {}

  /** The newest `k` pages, oldest first. */
  function Newest(w: seq<string>, lines: nat, k: nat): seq<string>
    requires lines > 0 && k <= Pages(w, lines)
  {
    if k == 0 then []
    else
      PageStartsInside(|w|, lines, k - 1);
      Page(w, lines, k - 1) + Newest(w, lines, k - 1)
  }

  lemma {:induction false} NewestIsSuffix(w: seq<string>, lines: nat, k: nat)
    requires lines > 0 && k <= Pages(w, lines)
    ensures Newest(w, lines, k) == w[Max(0, |w| - k * lines)..]
  {
    if k > 0 {
      PageStartsInside(|w|, lines, k - 1);
      NewestIsSuffix(w, lines, k - 1);
      MulSuccessor(k - 1, lines);
    }
  }

  /** For any page size, the pages from oldest to newest concatenate to exactly the window. */
  lemma PagesCoverWindow(w: seq<string>, lines: nat)
    requires lines > 0
    ensures Newest(w, lines, Pages(w, lines)) == w
  {
    var p := Pages(w, lines);
    NewestIsSuffix(w, lines, p);
    CeilDivBounds(|w|, lines);
  }

  /** Every page but the oldest is full, and none is empty. */
  lemma PageSizes(w: seq<string>, lines: nat, k: nat)
    requires lines > 0 && k < Pages(w, lines)
    ensures k * lines < |w|
    ensures 0 < |Page(w, lines, k)| <= lines
    ensures k + 1 < Pages(w, lines) ==> |Page(w, lines, k)| == lines
  {
    PageStartsInside(|w|, lines, k);
    if k + 1 < Pages(w, lines) {
      PageStartsInside(|w|, lines, k + 1);
      MulSuccessor(k, lines);
    }
  }

  lemma SomePages(n: nat, lines: nat)
    requires n > 0 && lines > 0
    ensures CeilDiv(n, lines) > 0
  {
    CeilDivBounds(n, lines);
  }

  /** The page a reader asking for page `p` gets: page numbers wrap around. */
  function PageOf(w: seq<string>, lines: nat, p: nat): seq<string>
    requires w != [] && lines > 0
  {
    SomePages(|w|, lines);
    PageStartsInside(|w|, lines, p % Pages(w, lines));
    Page(w, lines, p % Pages(w, lines))
  }

  lemma PageOfNumber(w: seq<string>, lines: nat, p: nat, number: nat)
    requires w != [] && lines > 0 && Pages(w, lines) > 0
    requires number == p % Pages(w, lines) && number * lines < |w|
    ensures PageOf(w, lines, p) == Page(w, lines, number)
  {}

  /** The newest page is number 0, and a number past the oldest page starts again from there. */
  lemma PageNumbersWrap(w: seq<string>, lines: nat, p: nat)
    requires w != [] && lines > 0
    ensures p < Pages(w, lines) ==> p * lines < |w| && PageOf(w, lines, p) == Page(w, lines, p)
    ensures PageOf(w, lines, p + Pages(w, lines)) == PageOf(w, lines, p)
  {
    SomePages(|w|, lines);
    var n := Pages(w, lines);
    SmallMod(p, n);
    if p < n { PageStartsInside(|w|, lines, p); }
    ModOfSum(p, n);
  }

  /** Each new line pushes the oldest one out once the ring is full, and only then. */
  lemma WindowSlides(all: seq<string>, line: string)
    ensures all == Window(all) <==> |all| <= BUFF_LINES
    ensures Window(all + [line]) ==
            (if |all| < BUFF_LINES then Window(all) else Window(all)[1..]) + [line]
    ensures |Window(all)| == Min(|all|, BUFF_LINES)
  {}

  class BotLogger {
    const buffer: array<string>
    var buffLine: nat
    var pageLines: int
    var buffPages: int
    var totLines: nat
    /** Every line ever logged. */
    ghost var all: seq<string>

    ghost predicate Valid()
      reads this, buffer
    {
      && buffer.Length == BUFF_LINES
      && totLines == |all|
      && buffLine == totLines % BUFF_LINES
      && forall i :: 0 <= i < |all| && |all| - BUFF_LINES <= i ==> buffer[i % BUFF_LINES] == all[i]
    }

    constructor ()
      ensures Valid() && all == [] && pageLines == 20 && fresh(buffer)
    {
      buffer := new string[BUFF_LINES](_ => "");
      buffLine, totLines, pageLines, buffPages := 0, 0, 20, BUFF_LINES / 20;
      all := [];
    }

    /** The ring write of `Log`. */
    method Append(line: string)
      requires Valid()
      modifies this`buffLine, this`totLines, this`all, buffer
      ensures Valid() && all == old(all) + [line]
    {
      buffer[buffLine] := line;
      buffLine := (buffLine + 1) % BUFF_LINES;
      totLines := totLines + 1;
      all := all + [line];
      forall i | 0 <= i < |all| && |all| - BUFF_LINES <= i ensures buffer[i % BUFF_LINES] == all[i] {
        if i < |all| - 1 { OtherSlot(i, |all| - 1); }
      }
    }

    /** Copy lines `startPos` to `endPos` of the window out of the ring. */
    method CopyLines(stored: nat, startPos: nat, endPos: nat) returns (page: seq<string>)
      requires Valid() && stored == |Window(all)| && startPos <= endPos <= stored
      ensures page == Window(all)[startPos..endPos]
    {
      ghost var w := Window(all);
      page := [];
      var oldest := (buffLine - stored + BUFF_LINES) % BUFF_LINES;
      for i := startPos to endPos
        invariant page == w[startPos..i]
      {
        var idx := (oldest + i) % BUFF_LINES;
        SlotOf(totLines, stored, i);
        assert w[i] == all[totLines - stored + i];
        page := page + [buffer[idx]];
      }
    }

    /** Page `p` back from the newest; a page number past the oldest page wraps around. */
    method LogPage(p: int) returns (page: seq<string>, wrapped: bool)
      requires Valid()
      ensures all == [] ==> page == [] && !wrapped
      ensures all != [] ==>
                && page == PageOf(Window(all), Max(1, pageLines), Max(0, p))
                && (wrapped <==> Max(0, p) >= Pages(Window(all), Max(1, pageLines)))
    {
      var k := if p < 0 then 0 else p;
      var lines := if pageLines <= 0 then 1 else pageLines;
      var stored := if totLines > BUFF_LINES then BUFF_LINES else totLines;
      if stored <= 0 { return [], false; }
      var startPos, endPos;
      startPos, endPos, wrapped := PageBounds(stored, lines, k, Window(all));
      page := CopyLines(stored, startPos, endPos);
    }

    /** Where the page lies in the window. */
    static method PageBounds(stored: nat, lines: nat, p: nat, ghost w: seq<string>)
      returns (startPos: nat, endPos: nat, wrapped: bool)
      requires stored == |w| > 0 && lines > 0
      ensures startPos <= endPos <= stored && w[startPos..endPos] == PageOf(w, lines, p)
      ensures wrapped <==> p >= Pages(w, lines)
    {
      var totalPages := CeilDiv(stored, lines);
      SomePages(stored, lines);
      var number := p;
      wrapped := false;
      if p >= totalPages {
        number := p % totalPages;
        wrapped := true;
      }
      SmallMod(p, totalPages);
      PageStartsInside(stored, lines, number);
      PageOfNumber(w, lines, p, number);
      startPos, endPos := Bounds(stored, lines, number, w);
    }

    static method Bounds(stored: nat, lines: nat, number: nat, ghost w: seq<string>)
      returns (startPos: nat, endPos: nat)
      requires stored == |w| > 0 && lines > 0 && number * lines < stored
      ensures startPos <= endPos <= stored && w[startPos..endPos] == Page(w, lines, number)
    {
      var endOffset := number * lines;
      endPos := stored - endOffset;
      var start := endPos - lines;
      if start < 0 { start := 0; }
      startPos := start;
    }

    method SetLogPageLines(l: int) returns (lines: int)
      modifies this`pageLines, this`buffPages
      ensures lines == pageLines == Max(1, Min(l, MAX_LINES))
      ensures buffPages == CeilDiv(BUFF_LINES, pageLines)
    {
      lines := l;
      if l > MAX_LINES { lines := MAX_LINES; }
      if l <= 0 { lines := 1; }
      pageLines := lines;
      buffPages := CeilDiv(BUFF_LINES, lines);
    }
  }

  lemma SmallMod(k: nat, n: nat)
    requires n > 0
    ensures k % n < n && (k < n ==> k % n == k)
  {}

  lemma ModOfSum(k: nat, n: nat)
    requires n > 0
    ensures (k + n) % n == k % n
  {
    var q := k / n;
    MulSuccessor(q, n);
    RemainderIsUnique(k + n, n, q + 1, k % n);
  }

  lemma RemainderIsUnique(x: nat, n: nat, q: nat, r: nat)
    requires r < n && x == q * n + r
    ensures x % n == r
  {
    var q', r' := x / n, x % n;
    assert x == q' * n + r';
    if q' > q {
      MulMonotone(q + 1, q', n);
      MulSuccessor(q, n);
    } else if q > q' {
      MulMonotone(q' + 1, q, n);
      MulSuccessor(q', n);
    }
  }

  lemma OtherSlot(i: nat, n: nat)
    requires i < n < i + BUFF_LINES
    ensures i % BUFF_LINES != n % BUFF_LINES
  {}

  lemma SlotOf(total: nat, stored: nat, i: nat)
    requires stored == Min(total, BUFF_LINES) && i < stored
    ensures ((total % BUFF_LINES - stored + BUFF_LINES) % BUFF_LINES + i) % BUFF_LINES ==
            (total - stored + i) % BUFF_LINES
  {}
}
