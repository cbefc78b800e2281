/**
  The three functions of Go's `strings` package that the platform-name
  resolver calls (`TrimSpace`, `ToLower`, `Split`), modelled on Dafny strings
  (sequences of Unicode scalar values), together with `Join`, the inverse that
  gives `Split` its meaning.
 */
module GoStrings {

  /** Go's `unicode.IsSpace`: the Latin-1 spaces '\t', '\n', '\v', '\f', '\r',
      ' ', U+0085 and U+00A0, and the other characters Unicode gives the
      White_Space property. */
  predicate IsSpace(c: char) {
    var n := c as int;
    || (0x09 <= n <= 0x0D) || n == 0x20 || n == 0x85 || n == 0xA0
    || n == 0x1680 || (0x2000 <= n <= 0x200A) || n == 0x2028 || n == 0x2029
    || n == 0x202F || n == 0x205F || n == 0x3000
  }

  /** Every character of `s` is white space (vacuously true of ""). */
  predicate Blank(s: string) {
    forall k :: 0 <= k < |s| ==> IsSpace(s[k])
  }

  /** The first position at or after `i` that holds no white space, or `|s|`
      when there is none: where the trimmed string starts. */
  function SkipSpace(s: string, i: nat): (start: nat)
    requires i <= |s|
    ensures i <= start <= |s|
    ensures forall k :: i <= k < start ==> IsSpace(s[k])
    ensures start < |s| ==> !IsSpace(s[start])
    decreases |s| - i
  {
    if i < |s| && IsSpace(s[i]) then SkipSpace(s, i + 1) else i
  }

  /** The end `stop` of `s[start..j]` without its trailing white space. */
  function SkipSpaceBack(s: string, start: nat, j: nat): (stop: nat)
    requires start <= j <= |s|
    ensures start <= stop <= j
    ensures forall k :: stop <= k < j ==> IsSpace(s[k])
    ensures stop > start ==> !IsSpace(s[stop - 1])
    decreases j
  {
    if j > start && IsSpace(s[j - 1]) then SkipSpaceBack(s, start, j - 1) else j
  }

  /** Go's `strings.TrimSpace`: `s` without its leading and trailing white
      space. Nothing is left exactly when `s` is blank; otherwise what is
      left starts and ends with a character that is not white space. */
  function TrimSpace(s: string): (r: string)
    ensures r == [] <==> Blank(s)
    ensures r != [] ==> !IsSpace(r[0]) && !IsSpace(r[|r| - 1])
  {
    var start := SkipSpace(s, 0);
    s[start..SkipSpaceBack(s, start, |s|)]
  }

  /** `TrimSpace` only cuts white space off the two ends of `s`. */
  lemma TrimSpaceCutsOnlySpace(s: string)
    ensures exists i ::
              0 <= i <= |s| - |TrimSpace(s)| && TrimSpace(s) == s[i..i + |TrimSpace(s)|]
              && Blank(s[..i]) && Blank(s[i + |TrimSpace(s)|..])
  {
    var start := SkipSpace(s, 0);
    var stop := SkipSpaceBack(s, start, |s|);
    assert Blank(s[..start]) && Blank(s[stop..]);
    assert TrimSpace(s) == s[start..stop];
  }

  predicate IsAsciiUpper(c: char) {
    'A' <= c <= 'Z'
  }

  /** `s` holds no upper-case ASCII letter. */
  predicate NoAsciiUpper(s: string) {
    forall k :: 0 <= k < |s| ==> !IsAsciiUpper(s[k])
  }

  function LowerChar(c: char): char {
    if IsAsciiUpper(c) then (c as int + 32) as char else c
  }

  /** Go's `strings.ToLower`, restricted to ASCII case mapping: upper-case
      ASCII letters become lower case and every other character is kept. */
  function ToLower(s: string): (r: string)
    ensures |r| == |s|
    ensures NoAsciiUpper(r)
    ensures forall k :: 0 <= k < |s| ==>
      if IsAsciiUpper(s[k]) then r[k] as int == s[k] as int + 32 else r[k] == s[k]
  {
    seq(|s|, k requires 0 <= k < |s| => LowerChar(s[k]))
  }

  /** Lowercasing a string that holds no upper-case letter changes nothing;
      in particular `ToLower` is idempotent. */
  lemma ToLowerIdentity(s: string)
    requires NoAsciiUpper(s)
    ensures ToLower(s) == s
  {
  }

  lemma ToLowerIdempotent(s: string)
    ensures ToLower(ToLower(s)) == ToLower(s)
  {
    ToLowerIdentity(ToLower(s));
  }

  /** Lowercasing keeps white space and separators where they are. */
  lemma ToLowerKeepsNonLetters(s: string, c: char)
    requires !IsAsciiUpper(c) && !('a' <= c <= 'z')
    ensures forall k :: 0 <= k < |s| ==> (s[k] == c <==> ToLower(s)[k] == c)
    ensures Blank(ToLower(s)) <==> Blank(s)
  {
    var r := ToLower(s);
    forall k | 0 <= k < |s| ensures IsSpace(r[k]) <==> IsSpace(s[k]) {
      if IsAsciiUpper(s[k]) {
        assert 'a' as int <= r[k] as int <= 'z' as int;
      }
    }
  }

  /** The position of the first `c` in `s` at or after `i`, or `|s|` when
      there is none. */
  function IndexFrom(s: string, c: char, i: nat): (j: nat)
    requires i <= |s|
    ensures i <= j <= |s|
    ensures j < |s| ==> s[j] == c
    ensures forall k :: i <= k < j ==> s[k] != c
    decreases |s| - i
  {
    if i == |s| || s[i] == c then i else IndexFrom(s, c, i + 1)
  }

  /** The position of the first `c` in `s`, or `|s|` when `s` holds no `c`. */
  function IndexOf(s: string, c: char): (i: nat)
    ensures i <= |s|
    ensures i < |s| ==> s[i] == c
    ensures c !in s[..i]
  {
    IndexFrom(s, c, 0)
  }

  /** Go's `strings.Join` with a one-character separator. */
  function Join(parts: seq<string>, sep: char): (s: string)
  {
    if |parts| == 0 then []
    else if |parts| == 1 then parts[0]
    else parts[0] + [sep] + Join(parts[1..], sep)
  }

  /** Go's `strings.Split` with a one-character separator: the pieces of `s`
      between the occurrences of `sep`. There is always at least one piece,
      no piece holds `sep`, the first piece is `s` up to its first `sep`, and
      joining the pieces back with `sep` gives `s`. */
  function Split(s: string, sep: char): (parts: seq<string>)
    ensures |parts| >= 1
    ensures forall k :: 0 <= k < |parts| ==> sep !in parts[k]
    ensures parts[0] == s[..IndexOf(s, sep)]
    ensures Join(parts, sep) == s
    decreases |s|
  {
    var i := IndexOf(s, sep);
    if i == |s| then
      assert s[..i] == s;
      [s]
    else
      var rest := Split(s[i + 1..], sep);
      assert s == s[..i] + [sep] + s[i + 1..];
      [s[..i]] + rest
  }

  /** The first separator of `a + [sep] + b` is the one after `a` when `a`
      holds none. */
  lemma IndexOfAfterPiece(a: string, sep: char, b: string)
    requires sep !in a
    ensures IndexOf(a + [sep] + b, sep) == |a|
  {
    var s := a + [sep] + b;
    assert s[|a|] == sep;
  }

  /** The other direction of the round trip: splitting a join of pieces that
      hold no separator gives the pieces back. */
  lemma {:induction false} SplitJoin(parts: seq<string>, sep: char)
    requires |parts| >= 1
    requires forall k :: 0 <= k < |parts| ==> sep !in parts[k]
    ensures Split(Join(parts, sep), sep) == parts
    decreases |parts|
  {
    var s := Join(parts, sep);
    if |parts| == 1 {
      assert IndexOf(s, sep) == |s|;
    } else {
      var tail := Join(parts[1..], sep);
      var i := |parts[0]|;
      assert s == parts[0] + [sep] + tail;
      IndexOfAfterPiece(parts[0], sep, tail);
      assert s[..i] == parts[0] && s[i + 1..] == tail;
      assert Split(s, sep) == [parts[0]] + Split(tail, sep);
      SplitJoin(parts[1..], sep);
      assert parts == [parts[0]] + parts[1..];
    }
  }
}
