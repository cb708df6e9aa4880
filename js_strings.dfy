/**
 * The JavaScript string operations the core relies on: `trim`, `split` on a
 * one-character separator, `replace` of the first occurrence of a character
 * and a global one-character `replace(/x/g, y)`.
 */
module JsStrings {
  import opened Wrappers

  /**
   * The ECMAScript WhiteSpace and LineTerminator code points, which
   * `String.prototype.trim` removes from both ends.
   */
  predicate IsWhiteSpace(c: char) {
    var n := c as int;
    n == 0x09 || n == 0x0A || n == 0x0B || n == 0x0C || n == 0x0D || n == 0x20
    || n == 0xA0 || n == 0x1680 || (0x2000 <= n <= 0x200A) || n == 0x2028
    || n == 0x2029 || n == 0x202F || n == 0x205F || n == 0x3000 || n == 0xFEFF
  }

  /** Every character of `s` is white space (the empty string included). */
  predicate Blank(s: string) {
    forall i :: 0 <= i < |s| ==> IsWhiteSpace(s[i])
  }

  /** `s` with its longest all-white-space prefix removed. */
  function TrimStart(s: string): (r: string)
    ensures |r| <= |s| && r == s[|s| - |r|..]
    ensures Blank(s[..|s| - |r|])
    ensures r == "" || !IsWhiteSpace(r[0])
  {
    if s != "" && IsWhiteSpace(s[0]) then
      var r := TrimStart(s[1..]);
      assert s[..|s| - |r|] == [s[0]] + s[1..][..|s| - 1 - |r|];
      r
    else
      s
  }

  /** `s` with its longest all-white-space suffix removed. */
  function TrimEnd(s: string): (r: string)
    ensures |r| <= |s| && r == s[..|r|]
    ensures Blank(s[|r|..])
    ensures r == "" || !IsWhiteSpace(r[|r| - 1])
  {
    if s != "" && IsWhiteSpace(s[|s| - 1]) then
      var r := TrimEnd(s[..|s| - 1]);
      assert s[|r|..] == s[..|s| - 1][|r|..] + [s[|s| - 1]];
      r
    else
      s
  }

  /**
   * `s.trim()`: a middle slice of `s` whose cut-off ends are all white space,
   * and neither end of the result is white space.
   */
  function Trim(s: string): (r: string)
    ensures |r| <= |s|
    ensures exists a, b :: 0 <= a <= b <= |s| && Blank(s[..a]) && Blank(s[b..]) && r == s[a..b]
    ensures r == "" || (!IsWhiteSpace(r[0]) && !IsWhiteSpace(r[|r| - 1]))
  {
    var t := TrimStart(s);
    var r := TrimEnd(t);
    var a := |s| - |t|;
    assert r == s[a..a + |r|];
    assert s[a + |r|..] == t[|r|..];
    r
  }

  /** `s.trim()` is empty exactly when `s` holds nothing but white space. */
  lemma TrimEmptyIffBlank(s: string)
    ensures Trim(s) == "" <==> Blank(s)
  {
    var t := TrimStart(s);
    if Trim(s) == "" {
      // TrimEnd left nothing, so t is blank; a non-empty t would start with a non-space
      assert Blank(t[0..]) && t[0..] == t;
      assert t == "";
      assert s[..|s|] == s;
    }
    if Blank(s) {
      assert t == "";
    }
  }

  /** `s.split(sep)`: the pieces of `s` between occurrences of `sep`, in order. */
  function Split(s: string, sep: char): (fields: seq<string>)
    ensures |fields| >= 1
    ensures forall i :: 0 <= i < |fields| ==> sep !in fields[i]
  {
    if s == "" then
      [""]
    else
      var rest := Split(s[1..], sep);
      if s[0] == sep then [""] + rest
      else [[s[0]] + rest[0]] + rest[1..]
  }

  /** `fields.join(sep)`. */
  function Join(fields: seq<string>, sep: char): string {
    if |fields| == 0 then ""
    else if |fields| == 1 then fields[0]
    else fields[0] + [sep] + Join(fields[1..], sep)
  }

  /** Splitting loses nothing: joining the pieces back gives the original string. */
  lemma {:induction false} JoinSplit(s: string, sep: char)
    ensures Join(Split(s, sep), sep) == s
  {
    if s != "" {
      var rest := Split(s[1..], sep);
      JoinSplit(s[1..], sep);
      if s[0] == sep {
        assert Split(s, sep) == [""] + rest;
        assert ([""] + rest)[1..] == rest;
      } else if |rest| == 1 {
        assert Split(s, sep) == [[s[0]] + rest[0]];
      } else {
        var fields := Split(s, sep);
        assert fields[1..] == rest[1..];
        assert Join(rest, sep) == rest[0] + [sep] + Join(rest[1..], sep);
      }
    }
  }

  /** A piece without `sep` splits to itself. */
  lemma {:induction false} SplitWithoutSeparator(f: string, sep: char)
    requires sep !in f
    ensures Split(f, sep) == [f]
  {
    if f != "" {
      SplitWithoutSeparator(f[1..], sep);
      assert [f[0]] + f[1..] == f;
    }
  }

  /** A string without `sep` has no second field. */
  lemma NoSecondFieldWithoutSeparator(s: string, sep: char)
    ensures sep !in s ==> Field(s, sep, 1) == None
  {
    if sep !in s {
      SplitWithoutSeparator(s, sep);
    }
  }

  /** A leading piece without `sep`, followed by `sep`, becomes the first field. */
  lemma {:induction false} SplitAfterPiece(f: string, sep: char, r: string)
    requires sep !in f
    ensures Split(f + [sep] + r, sep) == [f] + Split(r, sep)
  {
    var s := f + [sep] + r;
    if f == "" {
      assert s[0] == sep && s[1..] == r;
    } else {
      assert s[0] == f[0] && s[1..] == f[1..] + [sep] + r;
      SplitAfterPiece(f[1..], sep, r);
      assert [f[0]] + f[1..] == f;
    }
  }

  /** Splitting undoes joining when no piece contains the separator. */
  lemma {:induction false} SplitJoin(fields: seq<string>, sep: char)
    requires |fields| >= 1
    requires forall i :: 0 <= i < |fields| ==> sep !in fields[i]
    ensures Split(Join(fields, sep), sep) == fields
  {
    if |fields| == 1 {
      SplitWithoutSeparator(fields[0], sep);
    } else {
      SplitJoin(fields[1..], sep);
      SplitAfterPiece(fields[0], sep, Join(fields[1..], sep));
      assert [fields[0]] + fields[1..] == fields;
    }
  }

  /** `s.split(sep)[k]`, `undefined` (None) when there are not that many pieces. */
  function Field(s: string, sep: char, k: nat): (f: Option<string>)
    ensures f.Some? ==> sep !in f.value
  {
    var fields := Split(s, sep);
    if k < |fields| then Some(fields[k]) else None
  }

  /** Piece `k` of a joined string is the `k`-th joined piece. */
  lemma FieldOfJoin(fields: seq<string>, sep: char, k: nat)
    requires |fields| >= 1
    requires forall i :: 0 <= i < |fields| ==> sep !in fields[i]
    ensures Field(Join(fields, sep), sep, k) == if k < |fields| then Some(fields[k]) else None
  {
    SplitJoin(fields, sep);
  }

  /** `s.replace(/from/g, to)` for one-character pattern and replacement. */
  function ReplaceAll(s: string, from: char, to: char): (r: string)
    ensures |r| == |s|
    ensures forall i :: 0 <= i < |s| ==> r[i] == (if s[i] == from then to else s[i])
  {
    if s == "" then "" else [if s[0] == from then to else s[0]] + ReplaceAll(s[1..], from, to)
  }

  /** The index of the first `c` in `s`, or `|s|` when there is none. */
  function IndexOf(s: string, c: char): (k: nat)
    ensures k <= |s|
    ensures c !in s[..k]
    ensures k < |s| ==> s[k] == c
  {
    if s == "" then 0
    else if s[0] == c then 0
    else
      var k := IndexOf(s[1..], c);
      assert s[..k + 1] == [s[0]] + s[1..][..k];
      k + 1
  }

  /** `s.replace(c, replacement)` with a string pattern of one character: only the first `c` is replaced. */
  function ReplaceFirst(s: string, c: char, replacement: string): (r: string)
    ensures c !in s ==> r == s
    ensures c in s ==> r == s[..IndexOf(s, c)] + replacement + s[IndexOf(s, c) + 1..]
  {
    if s == "" then ""
    else if s[0] == c then replacement + s[1..]
    else
      var r := [s[0]] + ReplaceFirst(s[1..], c, replacement);
      assert c in s ==> c in s[1..];
      r
  }
}
