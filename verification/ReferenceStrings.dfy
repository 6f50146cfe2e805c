// The textual reference strings of the paging assignment: the master prints every page
// number with "%d." and each process parses the string again, one page at a time.
module ReferenceStrings {

  function DigitChar(d: nat): char
    requires d < 10
  {
    ('0' as int + d) as char
  }

  // What "%d" prints for a page number.
  function Digits(n: nat): string {
    if n < 10 then [DigitChar(n)] else Digits(n / 10) + [DigitChar(n % 10)]
  }

  // The whole reference string of a process.
  function Render(pages: seq<nat>): string {
    if pages == [] then "" else Digits(pages[0]) + "." + Render(pages[1..])
  }

  // Where the text of page number j begins.
  function Offset(pages: seq<nat>, j: nat): nat
    requires j <= |pages|
  {
    |Render(pages[..j])|
  }

  // The digit loop of the parser, started at index i with the value read so far.
  function Scan(s: string, i: nat, acc: int): (int, nat)
    decreases |s| - i
  {
    if i >= |s| || s[i] == '.' then (acc, i)
    else Scan(s, i + 1, acc * 10 + (s[i] as int - '0' as int))
  }

  // One turn of the parser: the page at index i and the index after its separator.
  function ParsePage(s: string, i: nat): (int, nat) {
    var (page, stop) := Scan(s, i, 0);
    (page, stop + 1)
  }

  // The master's strcat loop.
  method BuildReferenceString(pages: seq<nat>) returns (text: string)
    ensures text == Render(pages)
  {
    text := "";
    var j := 0;
    while j < |pages|
      invariant j <= |pages|
      invariant text == Render(pages[..j])
    {
      RenderSplits(pages[..j], [pages[j]]);
      assert pages[..j + 1] == pages[..j] + [pages[j]];
      assert Render([pages[j]]) == Digits(pages[j]) + ".";
      text := text + (Digits(pages[j]) + ".");
      j := j + 1;
    }
    assert pages[..j] == pages;
  }

  // The process's parser loop.
  method ReadPage(s: string, start: nat) returns (page: int, next: nat)
    ensures (page, next) == ParsePage(s, start)
  {
    page := 0;
    var i := start;
    while i < |s| && s[i] != '.'
      invariant Scan(s, i, page) == Scan(s, start, 0)
      decreases |s| - i
    {
      page := page * 10 + (s[i] as int - '0' as int);
      i := i + 1;
    }
    next := i + 1;
  }

  lemma {:induction false} RenderSplits(a: seq<nat>, b: seq<nat>)
    ensures Render(a + b) == Render(a) + Render(b)
  {
    if a == [] {
      assert a + b == b;
    } else {
      RenderSplits(a[1..], b);
      assert (a + b)[1..] == a[1..] + b;
    }
  }

  function Value(ds: string, acc: int): int {
    if ds == "" then acc else Value(ds[1..], acc * 10 + (ds[0] as int - '0' as int))
  }

  lemma {:induction false} ValueOfLastDigit(ds: string, d: char, acc: int)
    ensures Value(ds + [d], acc) == Value(ds, acc) * 10 + (d as int - '0' as int)
  {
    if ds == "" {
      assert (ds + [d])[1..] == "";
    } else {
      assert (ds + [d])[1..] == ds[1..] + [d];
      ValueOfLastDigit(ds[1..], d, acc * 10 + (ds[0] as int - '0' as int));
    }
  }

  // Reading back the digits of a number gives the number, and none of them is the separator.
  lemma {:induction false} DigitsRoundTrip(n: nat)
    ensures Value(Digits(n), 0) == n
    ensures Digits(n) != "" && forall k :: 0 <= k < |Digits(n)| ==> Digits(n)[k] != '.'
  {
    if n >= 10 {
      DigitsRoundTrip(n / 10);
      ValueOfLastDigit(Digits(n / 10), DigitChar(n % 10), 0);
    } else {
      assert [DigitChar(n)][1..] == "";
    }
  }

  // ---------- The text is fixed ----------

  // A decimal numeral as "%d" prints it: digits, and none that could be left out.
  predicate IsNumeral(ds: string) {
    && ds != "" && (|ds| > 1 ==> ds[0] != '0')
    && forall k :: 0 <= k < |ds| ==> '0' <= ds[k] <= '9'
  }

  lemma {:induction false} DigitsAreNumeral(n: nat)
    ensures IsNumeral(Digits(n)) && Value(Digits(n), 0) == n && (|Digits(n)| == 1 <==> n < 10)
    ensures n > 0 ==> Digits(n)[0] != '0'
  {
    DigitsRoundTrip(n);
    if n >= 10 { DigitsAreNumeral(n / 10); }
  }

  // The value of digits is not negative, and more than 0 after a first digit other than 0.
  lemma {:induction false} ValueGrows(ds: string, acc: nat)
    requires forall k :: 0 <= k < |ds| ==> '0' <= ds[k] <= '9'
    ensures Value(ds, acc) >= acc
    ensures |ds| > 1 && ds[0] != '0' ==> Value(ds, acc) >= 10
  {
    if ds != "" {
      var acc' := acc * 10 + (ds[0] as int - '0' as int);
      ValueGrows(ds[1..], acc');
      if |ds| > 1 { ValueGrows(ds[1..][1..], acc' * 10 + (ds[1] as int - '0' as int)); }
    }
  }

  // A number has one numeral only.
  lemma {:induction false} OneNumeral(ds: string, n: nat)
    requires IsNumeral(ds) && Value(ds, 0) == n
    ensures ds == Digits(n)
    decreases |ds|
  {
    var last := |ds| - 1;
    assert ds == ds[..last] + [ds[last]];
    ValueOfLastDigit(ds[..last], ds[last], 0);
    if last == 0 {
      assert ds[..last] == "";
    } else {
      ValueGrows(ds, 0);
      OneNumeral(ds[..last], Value(ds[..last], 0));
    }
  }

  lemma {:induction false} ScanStopsAtSeparator(s: string, i: nat, e: nat, acc: int)
    requires i <= e <= |s| && (e == |s| || s[e] == '.')
    requires forall k :: i <= k < e ==> s[k] != '.'
    ensures Scan(s, i, acc) == (Value(s[i..e], acc), e)
    decreases e - i
  {
    if i < e {
      assert s[i..e][1..] == s[i + 1..e];
      ScanStopsAtSeparator(s, i + 1, e, acc * 10 + (s[i] as int - '0' as int));
    }
  }

  // The parser recovers the master's pages: at the offset of page j it reads exactly page j and
  // moves to the offset of page j + 1; only the offset after the last page is the end of the text.
  lemma {:induction false} ParseRoundTrip(pages: seq<nat>, j: nat)
    requires j <= |pages|
    ensures Offset(pages, 0) == 0
    ensures j < |pages| ==> Offset(pages, j) < |Render(pages)|
    ensures j < |pages| ==> ParsePage(Render(pages), Offset(pages, j)) == (pages[j], Offset(pages, j + 1))
    ensures j == |pages| ==> Offset(pages, j) == |Render(pages)|
  {
    assert pages[..0] == [];
    if j == |pages| {
      assert pages[..j] == pages;
    } else {
      var s, o := Render(pages), Offset(pages, j);
      var ds := Digits(pages[j]);
      assert pages == pages[..j] + pages[j..] && pages[j..][1..] == pages[j + 1..];
      RenderSplits(pages[..j], pages[j..]);
      assert s == Render(pages[..j]) + (ds + "." + Render(pages[j + 1..]));
      assert pages[..j + 1] == pages[..j] + [pages[j]];
      RenderSplits(pages[..j], [pages[j]]);
      assert Render([pages[j]]) == ds + ".";
      DigitsRoundTrip(pages[j]);
      assert s[o..o + |ds|] == ds;
      forall k | o <= k < o + |ds| ensures s[k] != '.' {
        assert s[k] == ds[k - o];
      }
      ScanStopsAtSeparator(s, o, o + |ds|, 0);
    }
  }

  // The text between the offsets of two pages is the numeral of the first of them and a dot; no other
  // numeral has its value.
  lemma {:induction false} TextOfPage(pages: seq<nat>, j: nat)
    requires j < |pages|
    ensures Offset(pages, j) < Offset(pages, j + 1) <= |Render(pages)|
    ensures var segment := Render(pages)[Offset(pages, j)..Offset(pages, j + 1)];
            var ds := segment[..|segment| - 1];
            && segment == ds + "." && IsNumeral(ds) && Value(ds, 0) == pages[j]
            && forall other :: IsNumeral(other) && Value(other, 0) == pages[j] ==> other == ds
  {
    var ds := Digits(pages[j]);
    assert pages == pages[..j + 1] + pages[j + 1..];
    RenderSplits(pages[..j + 1], pages[j + 1..]);
    assert pages[..j + 1] == pages[..j] + [pages[j]];
    RenderSplits(pages[..j], [pages[j]]);
    assert Render([pages[j]]) == ds + ".";
    var segment := Render(pages)[Offset(pages, j)..Offset(pages, j + 1)];
    assert segment == ds + "." && segment[..|segment| - 1] == ds;
    DigitsAreNumeral(pages[j]);
    forall other | IsNumeral(other) && Value(other, 0) == pages[j] ensures other == ds {
      OneNumeral(other, pages[j]);
    }
  }
}
