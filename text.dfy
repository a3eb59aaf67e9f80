/** Small value wrappers and the Python string operations the pipeline relies on:
    `"".join`, `sep.join`, `str.strip()`, `str.split()` and `str.endswith`. */
module Text {

  datatype Option<+T> = None | Some(value: T)

  datatype Result<+T, +E> = Ok(value: T) | Err(error: E)

  function Min(a: int, b: int): int
  {
    if a <= b then a else b
  }

  /** `"".join(parts)`. */
  function Concat(parts: seq<string>): string
  {
    if parts == [] then "" else parts[0] + Concat(parts[1..])
  }

  lemma {:induction false} ConcatAppend(a: seq<string>, b: seq<string>)
    ensures Concat(a + b) == Concat(a) + Concat(b)
  {
    if a == [] {
      assert a + b == b;
    } else {
      assert (a + b)[1..] == a[1..] + b;
      ConcatAppend(a[1..], b);
    }
  }

  /** `sep.join(parts)`. */
  function Join(parts: seq<string>, sep: string): string
  {
    if parts == [] then ""
    else if |parts| == 1 then parts[0]
    else parts[0] + sep + Join(parts[1..], sep)
  }

  /** The parts that are not the empty string, in order (`[p for p in parts if p]`). */
  function NonEmpty(parts: seq<string>): (r: seq<string>)
    ensures |r| <= |parts|
    ensures forall i :: 0 <= i < |r| ==> r[i] != ""
    ensures forall i :: 0 <= i < |r| ==> r[i] in parts
  {
    if parts == [] then []
    else if parts[0] == "" then NonEmpty(parts[1..])
    else [parts[0]] + NonEmpty(parts[1..])
  }

  /** Every non-empty part survives the filter. */
  lemma {:induction false} NonEmptyKeeps(parts: seq<string>)
    ensures forall p :: p in parts && p != "" ==> p in NonEmpty(parts)
    decreases |parts|
  {
    if parts != [] {
      NonEmptyKeeps(parts[1..]);
      assert forall p :: p in parts ==> p == parts[0] || p in parts[1..];
    }
  }

  /** The filter keeps the order of the parts: filtering a concatenation filters
      each side. */
  lemma {:induction false} NonEmptyAppend(a: seq<string>, b: seq<string>)
    ensures NonEmpty(a + b) == NonEmpty(a) + NonEmpty(b)
    decreases |a|
  {
    if a == [] {
      assert a + b == b;
    } else {
      assert (a + b)[1..] == a[1..] + b;
      NonEmptyAppend(a[1..], b);
    }
  }

  /** Only empty parts are dropped: the kept parts concatenate to all the text. */
  lemma {:induction false} NonEmptyConcat(parts: seq<string>)
    ensures Concat(NonEmpty(parts)) == Concat(parts)
    decreases |parts|
  {
    if parts != [] {
      NonEmptyConcat(parts[1..]);
      if parts[0] != "" {
        var r := [parts[0]] + NonEmpty(parts[1..]);
        assert r[1..] == NonEmpty(parts[1..]);
      }
    }
  }

  /** The characters Python's `str.isspace()` accepts, which are the separators of
      `str.split()` and what `str.strip()` removes. */
  predicate IsSpace(c: char)
  {
    var n := c as int;
    (0x09 <= n <= 0x0D) || (0x1C <= n <= 0x20) || n == 0x85 || n == 0xA0 || n == 0x1680
    || (0x2000 <= n <= 0x200A) || n == 0x2028 || n == 0x2029 || n == 0x202F || n == 0x205F
    || n == 0x3000
  }

  predicate NoSpace(s: string)
  {
    forall i :: 0 <= i < |s| ==> !IsSpace(s[i])
  }

  /** `s.lstrip()`. */
  function TrimStart(s: string): (r: string)
    ensures |r| <= |s| && r == s[|s| - |r|..]
    ensures r == [] || !IsSpace(r[0])
    ensures forall i :: 0 <= i < |s| - |r| ==> IsSpace(s[i])
  {
    if s == [] || !IsSpace(s[0]) then s else TrimStart(s[1..])
  }

  /** `s.rstrip()`. */
  function TrimEnd(s: string): (r: string)
    ensures |r| <= |s| && r == s[..|r|]
    ensures r == [] || !IsSpace(r[|r| - 1])
    ensures forall i :: |r| <= i < |s| ==> IsSpace(s[i])
  {
    if s == [] || !IsSpace(s[|s| - 1]) then s else TrimEnd(s[..|s| - 1])
  }

  /** `s.strip()`. */
  function Strip(s: string): string
  {
    TrimEnd(TrimStart(s))
  }

  lemma StripShape(s: string)
    ensures var r := Strip(s);
      (r == [] || (!IsSpace(r[0]) && !IsSpace(r[|r| - 1])))
      && IsInfix(r, s)
  {
    StripEnds(s);
    StripInfix(s);
  }

  lemma StripEnds(s: string)
    ensures var r := Strip(s); r == [] || (!IsSpace(r[0]) && !IsSpace(r[|r| - 1]))
  {
    var t := TrimStart(s);
    var r := TrimEnd(t);
    if r != [] {
      assert r[0] == t[0];
    }
  }

  lemma StripInfix(s: string)
    ensures IsInfix(Strip(s), s)
  {
    var t := TrimStart(s);
    var r := TrimEnd(t);
    var i := |s| - |t|;
    assert t == s[i..];
    assert r == s[i..][..|r|];
    assert 0 <= i <= |s| && r <= s[i..];
  }

  lemma StripIdempotent(s: string)
    ensures Strip(Strip(s)) == Strip(s)
  {
    StripShape(s);
  }

  /** Length of the leading run of non-space characters. */
  function WordLength(s: string): (n: nat)
    ensures n <= |s|
    ensures NoSpace(s[..n])
    ensures n < |s| ==> IsSpace(s[n])
    ensures s != [] && !IsSpace(s[0]) ==> n >= 1
  {
    if s == [] || IsSpace(s[0]) then 0
    else
      var n := 1 + WordLength(s[1..]);
      assert s[..n] == [s[0]] + s[1..][..n - 1];
      n
  }

  /** `s.split()` with no separator: the maximal runs of non-space characters, in order. */
  function Split(s: string): (r: seq<string>)
    decreases |s|
  {
    var t := TrimStart(s);
    if t == [] then []
    else
      var n := WordLength(t);
      [t[..n]] + Split(t[n..])
  }

  /** Every token is a non-empty run without whitespace. */
  lemma {:induction false} SplitTokens(s: string)
    ensures forall i :: 0 <= i < |Split(s)| ==> Split(s)[i] != [] && NoSpace(Split(s)[i])
    decreases |s|
  {
    var t := TrimStart(s);
    if t != [] {
      var n := WordLength(t);
      var word, rest := t[..n], Split(t[n..]);
      var r := [word] + rest;
      assert Split(s) == r;
      assert word != [] && NoSpace(word);
      SplitTokens(t[n..]);
      forall i | 0 <= i < |r|
        ensures r[i] != [] && NoSpace(r[i])
      {
        if i == 0 {
          assert r[i] == word;
        } else {
          assert r[i] == rest[i - 1];
        }
      }
    }
  }

  /** The characters of `s` that are not spaces, in order. */
  function NonSpace(s: string): string
  {
    if s == [] then []
    else if IsSpace(s[0]) then NonSpace(s[1..])
    else [s[0]] + NonSpace(s[1..])
  }

  lemma {:induction false} NonSpaceAppend(a: string, b: string)
    ensures NonSpace(a + b) == NonSpace(a) + NonSpace(b)
  {
    if a == [] {
      assert a + b == b;
    } else {
      assert (a + b)[1..] == a[1..] + b;
      NonSpaceAppend(a[1..], b);
    }
  }

  lemma {:induction false} NonSpaceOfWord(w: string)
    requires NoSpace(w)
    ensures NonSpace(w) == w
  {
    if w != [] {
      NonSpaceOfWord(w[1..]);
    }
  }

  lemma {:induction false} NonSpaceOfSpaces(s: string)
    requires forall i :: 0 <= i < |s| ==> IsSpace(s[i])
    ensures NonSpace(s) == []
  {
    if s != [] {
      NonSpaceOfSpaces(s[1..]);
    }
  }

  /** Splitting loses exactly the whitespace: the tokens glued together are the
      non-space characters of the input. */
  lemma {:induction false} SplitKeepsNonSpace(s: string)
    ensures Concat(Split(s)) == NonSpace(s)
    decreases |s|
  {
    var t := TrimStart(s);
    TrimStartKeepsNonSpace(s);
    if t != [] {
      var n := WordLength(t);
      WordKeepsNonSpace(t);
      SplitKeepsNonSpace(t[n..]);
      assert Split(s) == [t[..n]] + Split(t[n..]);
      assert Concat(Split(s)) == t[..n] + Concat(Split(t[n..]));
    }
  }

  lemma TrimStartKeepsNonSpace(s: string)
    ensures NonSpace(TrimStart(s)) == NonSpace(s)
  {
    var t := TrimStart(s);
    var lead := s[..|s| - |t|];
    assert s == lead + t;
    NonSpaceAppend(lead, t);
    NonSpaceOfSpaces(lead);
  }

  lemma WordKeepsNonSpace(t: string)
    ensures var n := WordLength(t); NonSpace(t) == t[..n] + NonSpace(t[n..])
  {
    var n := WordLength(t);
    assert t == t[..n] + t[n..];
    NonSpaceAppend(t[..n], t[n..]);
    NonSpaceOfWord(t[..n]);
  }

  predicate EndsWith(s: string, suffix: string)
  {
    |suffix| <= |s| && s[|s| - |suffix|..] == suffix
  }

  /** A string ends with the last character of any of its suffixes. */
  lemma EndsWithLast(s: string, suffix: string)
    requires suffix != []
    ensures EndsWith(s, suffix) ==> s[|s| - 1] == suffix[|suffix| - 1]
  {
    if EndsWith(s, suffix) {
      assert s[|s| - |suffix|..][|suffix| - 1] == s[|s| - 1];
    }
  }

  /** `part` occurs in `whole` as a contiguous substring. */
  predicate IsInfix(part: string, whole: string)
  {
    exists i :: 0 <= i <= |whole| && part <= whole[i..]
  }

  lemma InfixOfConcat(a: string, part: string, b: string)
    ensures IsInfix(part, a + part + b)
  {
    var w := a + part + b;
    assert w[|a|..] == part + b;
  }

  /** Both fields of a two-field template `a + x + b + y` occur in it. */
  lemma InfixOfTemplate(a: string, x: string, b: string, y: string)
    ensures IsInfix(x, a + x + b + y) && IsInfix(y, a + x + b + y)
  {
    var w := a + x + b + y;
    assert w[|a|..] == x + b + y;
    assert w[|a| + |x| + |b|..] == y;
  }
}
