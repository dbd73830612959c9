/**
 * The few Python string operations the core relies on, over `string`
 * (a sequence of Unicode scalar values): `str.strip("\"'")`,
 * `str.split("\n")`, `"\n".join(...)`, `": " in s`, `s.split(": ", 1)`
 * and `str.lower()`.
 */
module Text {
  import opened Wrappers
  import opened Seqs

  // ---------------------------------------------------------------------
  // str.strip("\"'")
  // ---------------------------------------------------------------------

  /** The characters `strip("\"'")` removes from both ends. */
  predicate IsQuote(c: char)
  {
    c == '"' || c == '\''
  }

  predicate AllQuotes(s: string)
  {
    forall k :: 0 <= k < |s| ==> IsQuote(s[k])
  }

  /** `s.lstrip("\"'")`: the longest suffix of `s` that does not start with a quote. */
  function TrimLeadingQuotes(s: string): (r: string)
    ensures |r| <= |s| && r == s[|s| - |r|..]
    ensures AllQuotes(s[..|s| - |r|])
    ensures r != [] ==> !IsQuote(r[0])
  {
    if s != [] && IsQuote(s[0]) then
      var r := TrimLeadingQuotes(s[1..]);
      assert s[..|s| - |r|] == [s[0]] + s[1..][..|s| - 1 - |r|];
      r
    else
      s
  }

  /** `s.rstrip("\"'")`: the longest prefix of `s` that does not end with a quote. */
  function TrimTrailingQuotes(s: string): (r: string)
    ensures |r| <= |s| && r == s[..|r|]
    ensures AllQuotes(s[|r|..])
    ensures r != [] ==> !IsQuote(r[|r| - 1])
  {
    if s != [] && IsQuote(s[|s| - 1]) then
      var r := TrimTrailingQuotes(s[..|s| - 1]);
      assert s[|r|..] == s[..|s| - 1][|r|..] + [s[|s| - 1]];
      r
    else
      s
  }

  /**
   * `s.strip("\"'")`: what is left of `s` once every quote character is
   * removed from both ends. The result is a contiguous piece of `s`, only
   * quotes were cut off, and it neither starts nor ends with a quote.
   */
  function StripQuotes(s: string): (r: string)
    ensures exists i, j :: 0 <= i <= j <= |s| && r == s[i..j] && AllQuotes(s[..i]) && AllQuotes(s[j..])
    ensures r != [] ==> !IsQuote(r[0]) && !IsQuote(r[|r| - 1])
  {
    var l := TrimLeadingQuotes(s);
    var r := TrimTrailingQuotes(l);
    StripPieces(s, l, r);
    r
  }

  /**
   * A prefix-trim of a suffix-trim is a contiguous piece of the text with
   * only quotes cut off either end.
   */
  lemma StripPieces(s: string, l: string, r: string)
    requires |l| <= |s| && l == s[|s| - |l|..] && AllQuotes(s[..|s| - |l|]) && (l != [] ==> !IsQuote(l[0]))
    requires |r| <= |l| && r == l[..|r|] && AllQuotes(l[|r|..]) && (r != [] ==> !IsQuote(r[|r| - 1]))
    ensures exists i, j :: 0 <= i <= j <= |s| && r == s[i..j] && AllQuotes(s[..i]) && AllQuotes(s[j..])
    ensures r != [] ==> !IsQuote(r[0]) && !IsQuote(r[|r| - 1])
  {
    var i := |s| - |l|;
    var j := i + |r|;
    assert r == s[i..j];
    assert s[j..] == l[|r|..];
  }

  /** Stripping twice is stripping once. */
  lemma StripQuotesIdempotent(s: string)
    ensures StripQuotes(StripQuotes(s)) == StripQuotes(s)
  {
  }

  /** Stripping leaves nothing exactly when the text consists of quotes only. */
  lemma StripQuotesEmpty(s: string)
    ensures StripQuotes(s) == [] <==> AllQuotes(s)
  {
    var r := StripQuotes(s);
    var i, j :| 0 <= i <= j <= |s| && r == s[i..j] && AllQuotes(s[..i]) && AllQuotes(s[j..]);
    if r == [] {
      assert s == s[..i] + s[j..];
    }
  }

  /** A text that neither starts nor ends with a quote is left as it is. */
  lemma StripQuotesUnquoted(s: string)
    requires s != [] ==> !IsQuote(s[0]) && !IsQuote(s[|s| - 1])
    ensures StripQuotes(s) == s
  {
  }

  // ---------------------------------------------------------------------
  // str.split("\n") and "\n".join(...)
  // ---------------------------------------------------------------------

  /** `s.split("\n")`: always at least one piece, no piece holds a newline. */
  function Lines(s: string): (r: seq<string>)
    ensures |r| >= 1
    ensures forall k :: 0 <= k < |r| ==> '\n' !in r[k]
  {
    if s == [] then
      [""]
    else if s[0] == '\n' then
      [""] + Lines(s[1..])
    else
      var rest := Lines(s[1..]);
      [[s[0]] + rest[0]] + rest[1..]
  }

  /** `"\n".join(xs)`, defined from the last piece backwards. */
  function Join(xs: seq<string>): (r: string)
  {
    if |xs| == 0 then ""
    else if |xs| == 1 then xs[0]
    else Join(xs[..|xs| - 1]) + "\n" + xs[|xs| - 1]
  }

  /**
   * The joined text starts with the first piece and ends with the last; two
   * or more pieces put a newline in between, and no pieces give the empty text.
   */
  lemma {:induction false} JoinEnds(xs: seq<string>)
    ensures xs == [] ==> Join(xs) == ""
    ensures |xs| >= 1 ==> |xs[0]| <= |Join(xs)| && Join(xs)[..|xs[0]|] == xs[0]
    ensures |xs| >= 1 ==> var r := Join(xs); |xs[|xs| - 1]| <= |r| && r[|r| - |xs[|xs| - 1]|..] == xs[|xs| - 1]
    ensures |xs| >= 2 ==> '\n' in Join(xs)
  {
    if |xs| >= 2 {
      var init := xs[..|xs| - 1];
      JoinEnds(init);
      var r := Join(xs);
      assert r == Join(init) + "\n" + xs[|xs| - 1];
      assert r[|Join(init)|] == '\n';
      assert init[0] == xs[0];
      assert r[..|xs[0]|] == Join(init)[..|xs[0]|];
    }
  }

  /** Splitting at a newline splits the two sides independently. */
  lemma {:induction false} LinesAround(a: string, b: string)
    ensures Lines(a + "\n" + b) == Lines(a) + Lines(b)
  {
    if a == [] {
      assert a + "\n" + b == "\n" + b;
      DropFirst("\n", b);
    } else {
      DropFirst(a + "\n", b);
      DropFirst(a, "\n");
      LinesAround(a[1..], b);
      if a[0] == '\n' {
        AppendAssoc([""], Lines(a[1..]), Lines(b));
      } else {
        PrependToFirst(a[0], Lines(a[1..]), Lines(b));
      }
    }
  }

  /** A text without a newline is one line. */
  lemma {:induction false} LinesSingle(x: string)
    requires '\n' !in x
    ensures Lines(x) == [x]
  {
    if x != [] {
      LinesSingle(x[1..]);
      assert [x[0]] + x[1..] == x;
    }
  }

  /** Splitting a join of newline-free pieces gives the pieces back. */
  lemma {:induction false} LinesOfJoin(xs: seq<string>)
    requires |xs| >= 1
    requires forall k :: 0 <= k < |xs| ==> '\n' !in xs[k]
    ensures Lines(Join(xs)) == xs
  {
    if |xs| == 1 {
      LinesSingle(xs[0]);
    } else {
      var init, last := xs[..|xs| - 1], xs[|xs| - 1];
      LinesOfJoin(init);
      LinesAround(Join(init), last);
      LinesSingle(last);
      assert init + [last] == xs;
    }
  }

  /** The last line of a join is its last piece when that piece has no newline. */
  lemma LinesOfJoinLast(xs: seq<string>)
    requires |xs| >= 1 && '\n' !in xs[|xs| - 1]
    ensures var ls := Lines(Join(xs)); ls[|ls| - 1] == xs[|xs| - 1]
  {
    var last := xs[|xs| - 1];
    LinesSingle(last);
    if |xs| > 1 {
      LinesAround(Join(xs[..|xs| - 1]), last);
    }
  }

  // ---------------------------------------------------------------------
  // `": " in line` and `line.split(": ", 1)`
  // ---------------------------------------------------------------------

  /** The two-character separator `": "` starts at index `k` of `s`. */
  predicate SepAt(s: string, k: int)
  {
    0 <= k && k + 1 < |s| && s[k] == ':' && s[k + 1] == ' '
  }

  /** `": " in s` */
  predicate HasSep(s: string)
  {
    exists k | 0 <= k < |s| :: SepAt(s, k)
  }

  /** `s.find(": ")`: the first position of the separator, if any. */
  function FindSep(s: string): (r: Option<nat>)
    ensures r.Some? ==> SepAt(s, r.value) && forall k :: 0 <= k < r.value ==> !SepAt(s, k)
    ensures r.None? ==> forall k :: !SepAt(s, k)
  {
    if |s| < 2 then
      None
    else if s[0] == ':' && s[1] == ' ' then
      Some(0)
    else
      match FindSep(s[1..])
      case None =>
        assert forall k :: SepAt(s, k) ==> k > 0 && SepAt(s[1..], k - 1);
        None
      case Some(i) =>
        assert forall k :: 0 < k <= i ==> (SepAt(s, k) <==> SepAt(s[1..], k - 1));
        Some(i + 1)
  }

  lemma FindSepIsSome(s: string)
    ensures FindSep(s).Some? <==> HasSep(s)
  {
  }

  /**
   * In `head + ": " + tail`, when `head` itself holds no `": "`, the first
   * separator is the one right after `head`, whatever `tail` holds.
   */
  lemma FindSepAfterHead(head: string, tail: string)
    requires !HasSep(head)
    ensures FindSep(head + ": " + tail) == Some(|head|)
  {
    var line := head + ": " + tail;
    assert SepAt(line, |head|);
    forall k | 0 <= k < |head|
      ensures !SepAt(line, k)
    {
      if k + 1 < |head| {
        assert !SepAt(head, k);
      } else {
        assert line[k + 1] == ':';
      }
    }
  }

  // ---------------------------------------------------------------------
  // str.lower()
  // ---------------------------------------------------------------------

  /** Upper-case letters of the modelled alphabets: Latin A-Z, Cyrillic А-Я and Ё. */
  predicate IsUpper(c: char)
  {
    'A' <= c <= 'Z' || 'А' <= c <= 'Я' || c == 'Ё'
  }

  /** Lower case of one character: an upper-case letter becomes its small letter, anything else stays. */
  function LowerChar(c: char): (r: char)
    ensures !IsUpper(r)
    ensures !IsUpper(c) ==> r == c
    ensures IsUpper(c) ==> r != c
  {
    if 'A' <= c <= 'Z' then (c as int + 32) as char
    else if 'А' <= c <= 'Я' then (c as int + 32) as char
    else if c == 'Ё' then 'ё'
    else c
  }

  /** `s.lower()`, character by character. */
  function Lower(s: string): (r: string)
    ensures |r| == |s|
  {
    seq(|s|, k requires 0 <= k < |s| => LowerChar(s[k]))
  }

  /**
   * Lowering leaves no upper-case letter and every other character
   * untouched, so lowering a lowered text changes nothing.
   */
  lemma LowerFacts(s: string)
    ensures forall k :: 0 <= k < |s| ==> !IsUpper(Lower(s)[k])
    ensures forall k :: 0 <= k < |s| && !IsUpper(s[k]) ==> Lower(s)[k] == s[k]
    ensures IsLower(Lower(s))
  {
  }

  /** Text that `lower()` leaves unchanged. */
  predicate IsLower(s: string)
  {
    Lower(s) == s
  }
}
