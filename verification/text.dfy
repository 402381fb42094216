/**
 * The Go standard-library string operations the gateway relies on, stated
 * over Unicode scalar values: `unicode.IsSpace`, `strings.Join`,
 * `len(strings.Fields(s))`, `strings.TrimSpace` and `%d` formatting.
 */
module Text {
  import opened Seqs

  /** Go's unicode.IsSpace: the Latin-1 spaces plus the Unicode White_Space characters. */
  predicate IsSpace(c: char)
  {
    || ('\t' <= c <= '\r')
    || c == ' '
    || c == '\U{85}'
    || c == '\U{A0}'
    || c == '\U{1680}'
    || ('\U{2000}' <= c <= '\U{200A}')
    || c == '\U{2028}'
    || c == '\U{2029}'
    || c == '\U{202F}'
    || c == '\U{205F}'
    || c == '\U{3000}'
  }

  predicate AllSpace(s: string)
  {
    forall i :: 0 <= i < |s| ==> IsSpace(s[i])
  }

  predicate HasPrefix(s: string, prefix: string)
  {
    |prefix| <= |s| && s[..|prefix|] == prefix
  }

  // ---------------------------------------------------------------------------
  // strings.Join

  function Join(parts: seq<string>, sep: string): string
  {
    if |parts| == 0 then ""
    else if |parts| == 1 then parts[0]
    else parts[0] + sep + Join(parts[1..], sep)
  }

  /** Joining two non-empty lists puts exactly one separator between their joins. */
  lemma {:induction false} JoinAppend(a: seq<string>, b: seq<string>, sep: string)
    requires |a| > 0 && |b| > 0
    ensures Join(a + b, sep) == Join(a, sep) + sep + Join(b, sep)
  {
    if |a| == 1 {
      assert (a + b)[1..] == b;
    } else {
      assert (a + b)[1..] == a[1..] + b;
      JoinAppend(a[1..], b, sep);
    }
  }

  /** A join of non-empty parts is empty exactly when there are no parts. */
  lemma JoinEmptyIff(parts: seq<string>, sep: string)
    requires forall i :: 0 <= i < |parts| ==> parts[i] != ""
    ensures Join(parts, sep) == "" <==> |parts| == 0
  {
    if |parts| > 0 {
      assert HasPrefix(Join(parts, sep), parts[0]);
    }
  }

  // ---------------------------------------------------------------------------
  // len(strings.Fields(s)): the number of maximal runs of non-space characters

  /** Position i begins a field: it is not a space and follows a space or the start. */
  predicate StartsField(s: string, i: int)
    requires 0 <= i < |s|
  {
    !IsSpace(s[i]) && (i == 0 || IsSpace(s[i - 1]))
  }

  /** Number of fields that begin before position n. */
  function FieldsBefore(s: string, n: nat): nat
    requires n <= |s|
  {
    if n == 0 then 0
    else FieldsBefore(s, n - 1) + (if StartsField(s, n - 1) then 1 else 0)
  }

  function FieldCount(s: string): nat
  {
    FieldsBefore(s, |s|)
  }

  /** One left-to-right pass with an in-field flag, as strings.Fields counts. */
  method CountFields(s: string) returns (n: nat)
    ensures n == FieldCount(s)
    ensures n == 0 <==> AllSpace(s)
  {
    n := 0;
    var inField := false;
    var i := 0;
    while i < |s|
      invariant 0 <= i <= |s|
      invariant n == FieldsBefore(s, i)
      invariant inField <==> (i > 0 && !IsSpace(s[i - 1]))
    {
      if IsSpace(s[i]) {
        inField := false;
      } else {
        if !inField {
          n := n + 1;
        }
        inField := true;
      }
      i := i + 1;
    }
    NoFieldsIffAllSpace(s, |s|);
    assert s[..|s|] == s;
  }

  /** No field begins before n exactly when the first n characters are all spaces. */
  lemma {:induction false} NoFieldsIffAllSpace(s: string, n: nat)
    requires n <= |s|
    ensures FieldsBefore(s, n) == 0 <==> AllSpace(s[..n])
  {
    if n > 0 {
      NoFieldsIffAllSpace(s, n - 1);
      assert s[..n] == s[..n - 1] + [s[n - 1]];
    }
  }

  /** The fields of p + q are those of p and those of q when a space separates them (or one side is empty). */
  predicate Separated(p: string, q: string)
  {
    |p| == 0 || |q| == 0 || IsSpace(p[|p| - 1]) || IsSpace(q[0])
  }

  lemma {:induction false} FieldsBeforeConcat(p: string, q: string, n: nat)
    requires Separated(p, q) && n <= |q|
    ensures FieldsBefore(p + q, |p| + n) == FieldCount(p) + FieldsBefore(q, n)
  {
    if n == 0 {
      FieldsBeforePrefix(p, q, |p|);
    } else {
      FieldsBeforeConcat(p, q, n - 1);
      assert (p + q)[|p| + n - 1] == q[n - 1];
      if n - 1 > 0 {
        assert (p + q)[|p| + n - 2] == q[n - 2];
      }
    }
  }

  /** Positions inside p count the same in p + q. */
  lemma {:induction false} FieldsBeforePrefix(p: string, q: string, n: nat)
    requires n <= |p|
    ensures FieldsBefore(p + q, n) == FieldsBefore(p, n)
  {
    if n > 0 {
      FieldsBeforePrefix(p, q, n - 1);
      assert (p + q)[n - 1] == p[n - 1];
      if n > 1 {
        assert (p + q)[n - 2] == p[n - 2];
      }
    }
  }

  lemma FieldCountConcat(p: string, q: string)
    requires Separated(p, q)
    ensures FieldCount(p + q) == FieldCount(p) + FieldCount(q)
  {
    FieldsBeforeConcat(p, q, |q|);
  }

  /** A non-empty run without spaces is one field. */
  lemma {:induction false} FieldCountOfWord(w: string, n: nat)
    requires 0 < n <= |w| && forall i :: 0 <= i < |w| ==> !IsSpace(w[i])
    ensures FieldsBefore(w, n) == 1
  {
    if n > 1 {
      FieldCountOfWord(w, n - 1);
    }
  }

  /** Words joined by single spaces count as exactly that many fields. */
  lemma {:induction false} FieldCountOfJoinedWords(words: seq<string>)
    requires forall k :: 0 <= k < |words| ==> words[k] != "" && forall i :: 0 <= i < |words[k]| ==> !IsSpace(words[k][i])
    ensures FieldCount(Join(words, " ")) == |words|
  {
    if |words| == 1 {
      FieldCountOfWord(words[0], |words[0]|);
    } else if |words| > 1 {
      var w := words[0];
      FieldCountOfWord(w, |w|);
      FieldCountConcat(w, " ");
      assert FieldCount(" ") == 0;
      FieldCountOfJoinedWords(words[1..]);
      FieldCountConcat(w + " ", Join(words[1..], " "));
    }
  }

  // ---------------------------------------------------------------------------
  // strings.TrimSpace

  predicate NotSpace(c: char)
  {
    !IsSpace(c)
  }

  /** Removes the leading spaces: what is left starts at the first non-space character. */
  function TrimLeft(s: string): (r: string)
    ensures r == s[FirstIndex(s, NotSpace)..]
  {
    if |s| > 0 && IsSpace(s[0]) then
      assert FirstIndex(s, NotSpace) == 1 + FirstIndex(s[1..], NotSpace);
      TrimLeft(s[1..])
    else s
  }

  /** Removes the trailing spaces. */
  function TrimRight(s: string): (r: string)
    ensures |r| <= |s| && r == s[..|r|]
    ensures AllSpace(s[|r|..])
    ensures r == [] || !IsSpace(r[|r| - 1])
  {
    if |s| > 0 && IsSpace(s[|s| - 1]) then
      var r := TrimRight(s[..|s| - 1]);
      assert s[|r|..] == s[..|s| - 1][|r|..] + [s[|s| - 1]];
      r
    else s
  }

  /**
   * strings.TrimSpace: the stretch of s from its first non-space character
   * to its last, with only spaces removed on either side.
   */
  function TrimSpace(s: string): (r: string)
    ensures var k := FirstIndex(s, NotSpace);
            && k + |r| <= |s|
            && r == s[k..k + |r|]
            && AllSpace(s[..k])
            && AllSpace(s[k + |r|..])
    ensures r == [] || (!IsSpace(r[0]) && !IsSpace(r[|r| - 1]))
  {
    LeadingSpace(s);
    TrimmedStretch(s);
    TrimmedEnds(s);
    TrimRight(TrimLeft(s))
  }

  /** TrimRight after TrimLeft keeps a stretch of s that starts at its first non-space and is followed only by spaces. */
  lemma {:induction false} TrimmedStretch(s: string)
    ensures var k := FirstIndex(s, NotSpace);
            var r := TrimRight(TrimLeft(s));
            && k + |r| <= |s|
            && r == s[k..k + |r|]
            && AllSpace(s[k + |r|..])
  {
    var k := FirstIndex(s, NotSpace);
    var l := TrimLeft(s);
    var r := TrimRight(l);
    StretchOfSuffix(s, k, l, r);
  }

  /** A prefix r of the suffix s[k..], followed there only by spaces, is a stretch of s followed only by spaces. */
  lemma {:induction false} StretchOfSuffix(s: string, k: nat, l: string, r: string)
    requires k <= |s| && l == s[k..]
    requires |r| <= |l| && r == l[..|r|] && AllSpace(l[|r|..])
    ensures k + |r| <= |s| && r == s[k..k + |r|] && AllSpace(s[k + |r|..])
  {
    SuffixSlices(s, k, |r|);
  }

  /** TrimRight after TrimLeft neither starts nor ends with a space. */
  lemma {:induction false} TrimmedEnds(s: string)
    ensures var r := TrimRight(TrimLeft(s));
            r == [] || (!IsSpace(r[0]) && !IsSpace(r[|r| - 1]))
  {
    var k := FirstIndex(s, NotSpace);
    var l := TrimLeft(s);
    var r := TrimRight(l);
    if r != [] {
      assert r[0] == l[0] == s[k];
      assert NotSpace(s[k]);
    }
  }

  /** Everything before the first non-space character is a space. */
  lemma {:induction false} LeadingSpace(s: string)
    ensures AllSpace(s[..FirstIndex(s, NotSpace)])
  {
    var k := FirstIndex(s, NotSpace);
    forall i | 0 <= i < k
      ensures IsSpace(s[..k][i])
    {
      assert !NotSpace(s[i]);
    }
  }

  /** Slicing a suffix of s is slicing s itself, shifted by where the suffix starts. */
  lemma {:induction false} SuffixSlices(s: string, k: nat, n: nat)
    requires k + n <= |s|
    ensures s[k..][..n] == s[k..k + n] && s[k..][n..] == s[k + n..]
  {
  }

  /** Trimming an already trimmed string changes nothing. */
  lemma TrimSpaceIdempotent(s: string)
    ensures TrimSpace(TrimSpace(s)) == TrimSpace(s)
  {
  }

  // ---------------------------------------------------------------------------
  // fmt's %d

  function DigitChar(d: nat): char
    requires d < 10
  {
    "0123456789"[d]
  }

  function NatDigits(n: nat): string
  {
    if n < 10 then [DigitChar(n)] else NatDigits(n / 10) + [DigitChar(n % 10)]
  }

  function DecimalString(i: int): string
  {
    if i < 0 then "-" + NatDigits(-i) else NatDigits(i)
  }
}
