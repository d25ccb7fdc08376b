/** The parts of JavaScript's built-in behaviour that the routes rely on:
    truthiness of a request-body string, `String.prototype.split` on one
    character, `String.prototype.trim`, `Array.prototype.indexOf` and
    `Array.prototype.splice(start, 1)`. */
module JsBuiltins {

  datatype Option<+T> = None | Some(value: T)

  /** A request-body value is `undefined` (None) or a string; a string is
      truthy exactly when it is non-empty. */
  predicate Truthy(v: Option<string>) {
    v.Some? && v.value != ""
  }

  /** What `if (v) obj.k = v` leaves in `obj.k`: the value when it is
      truthy, otherwise no key at all. */
  function TruthyOnly(v: Option<string>): (r: Option<string>)
    ensures r.Some? <==> Truthy(v)
    ensures r.Some? ==> r == v
    ensures r != Some("")
  {
    if Truthy(v) then v else None
  }

  // ---------------------------------------------------------------------
  // split
  // ---------------------------------------------------------------------

  /** Number of occurrences of `c` in `s`. */
  function Count(s: string, c: char): (n: nat)
    ensures n <= |s|
  {
    if s == [] then 0 else (if s[0] == c then 1 else 0) + Count(s[1..], c)
  }

  /** The count is the multiplicity of `c` in `s`. */
  lemma {:induction false} CountIsMultiplicity(s: string, c: char)
    ensures Count(s, c) == multiset(s)[c]
  {
    if s != [] {
      assert s == [s[0]] + s[1..];
      CountIsMultiplicity(s[1..], c);
    }
  }

  /** The pieces glued back together with `sep` between neighbours
      (`Array.prototype.join`). */
  function Join(parts: seq<string>, sep: char): string
    requires |parts| >= 1
  {
    if |parts| == 1 then parts[0] else parts[0] + [sep] + Join(parts[1..], sep)
  }

  /** `s.split(sep)` for a one-character separator: the maximal runs
      between separators, empty runs included, so there is always one
      piece more than there are separators. */
  function Split(s: string, sep: char): (r: seq<string>)
    ensures |r| == Count(s, sep) + 1
    ensures forall i :: 0 <= i < |r| ==> sep !in r[i]
    ensures Join(r, sep) == s
  {
    if s == [] then [""]
    else
      var rest := Split(s[1..], sep);
      if s[0] == sep then [""] + rest
      else
        var r := [[s[0]] + rest[0]] + rest[1..];
        assert r[1..] == rest[1..];
        assert |rest| > 1 ==> Join(rest, sep) == rest[0] + [sep] + Join(rest[1..], sep);
        r
  }

  /** Splitting a string that starts with a separator-free piece `p`
      extends the first piece of the rest by `p`. */
  lemma {:induction false} SplitPrefix(p: string, t: string, sep: char)
    requires sep !in p
    ensures Split(p + t, sep) == [p + Split(t, sep)[0]] + Split(t, sep)[1..]
  {
    if p != [] {
      assert (p + t)[1..] == p[1..] + t;
      SplitPrefix(p[1..], t, sep);
      assert [p[0]] + (p[1..] + Split(t, sep)[0]) == p + Split(t, sep)[0];
    } else {
      assert p + t == t;
      assert p + Split(t, sep)[0] == Split(t, sep)[0];
      assert [Split(t, sep)[0]] + Split(t, sep)[1..] == Split(t, sep);
    }
  }

  /** Joining three pieces. */
  lemma JoinThree(x: string, y: string, z: string, sep: char)
    ensures Join([x, y, z], sep) == x + [sep] + y + [sep] + z
  {
    assert [x, y, z][1..] == [y, z];
    assert [y, z][1..] == [z];
    assert Join([y, z], sep) == y + [sep] + z;
    assert Join([x, y, z], sep) == x + [sep] + (y + [sep] + z);
  }

  /** `split` undoes `join` when no piece holds the separator. */
  lemma {:induction false} SplitJoin(parts: seq<string>, sep: char)
    requires |parts| >= 1
    requires forall i :: 0 <= i < |parts| ==> sep !in parts[i]
    ensures Split(Join(parts, sep), sep) == parts
  {
    if |parts| == 1 {
      SplitPrefix(parts[0], "", sep);
      assert parts[0] + "" == parts[0];
    } else {
      var tail := Join(parts[1..], sep);
      SplitJoin(parts[1..], sep);
      assert parts[0] + [sep] + tail == parts[0] + ([sep] + tail);
      SplitPrefix(parts[0], [sep] + tail, sep);
      assert ([sep] + tail)[1..] == tail;
      assert Split([sep] + tail, sep) == [""] + parts[1..];
      assert parts[0] + "" == parts[0];
    }
  }

  // ---------------------------------------------------------------------
  // trim
  // ---------------------------------------------------------------------

  /** The characters `String.prototype.trim` strips: the ECMAScript
      WhiteSpace (TAB, VT, FF, SP, NBSP, ZWNBSP and the Unicode "Zs"
      characters) and LineTerminator (LF, CR, LS, PS) code points. */
  predicate IsJsWhitespace(c: char) {
    || c == '\t' || c == '\n' || c == '\U{000B}' || c == '\U{000C}' || c == '\r'
    || c == ' ' || c == '\U{00A0}' || c == '\U{1680}'
    || ('\U{2000}' <= c <= '\U{200A}')
    || c == '\U{2028}' || c == '\U{2029}' || c == '\U{202F}' || c == '\U{205F}'
    || c == '\U{3000}' || c == '\U{FEFF}'
  }

  /** Length of the whitespace run at the front of `s`. */
  function LeadingWhitespace(s: string): (n: nat)
    ensures n <= |s|
    ensures forall k :: 0 <= k < n ==> IsJsWhitespace(s[k])
    ensures n < |s| ==> !IsJsWhitespace(s[n])
  {
    if s != [] && IsJsWhitespace(s[0]) then 1 + LeadingWhitespace(s[1..]) else 0
  }

  /** Length of the whitespace run at the back of `s`. */
  function TrailingWhitespace(s: string): (n: nat)
    ensures n <= |s|
    ensures forall k :: |s| - n <= k < |s| ==> IsJsWhitespace(s[k])
    ensures n < |s| ==> !IsJsWhitespace(s[|s| - 1 - n])
  {
    if s != [] && IsJsWhitespace(s[|s| - 1]) then 1 + TrailingWhitespace(s[..|s| - 1]) else 0
  }

  /** `s.trim()`: the slice of `s` left after stripping both whitespace
      runs. Everything outside it is whitespace and it neither starts nor
      ends with whitespace. */
  function Trim(s: string): (r: string)
    ensures |r| + LeadingWhitespace(s) <= |s|
    ensures r == s[LeadingWhitespace(s)..LeadingWhitespace(s) + |r|]
    ensures forall k :: LeadingWhitespace(s) + |r| <= k < |s| ==> IsJsWhitespace(s[k])
    ensures r != [] ==> !IsJsWhitespace(r[0]) && !IsJsWhitespace(r[|r| - 1])
  {
    var rest := s[LeadingWhitespace(s)..];
    rest[..|rest| - TrailingWhitespace(rest)]
  }

  /** Trimming a string with no whitespace at either end gives it back. */
  lemma TrimKeepsUnpadded(s: string)
    requires s == [] || (!IsJsWhitespace(s[0]) && !IsJsWhitespace(s[|s| - 1]))
    ensures Trim(s) == s
  {
  }

  /** One space of padding on either side, or on the left only, is trimmed away. */
  lemma TrimSpacePadding(w: string)
    requires w != [] && !IsJsWhitespace(w[0]) && !IsJsWhitespace(w[|w| - 1])
    ensures Trim([' '] + w + [' ']) == w
    ensures Trim([' '] + w) == w
  {
    var p := [' '] + w + [' '];
    assert p[1..] == w + [' '];
    assert LeadingWhitespace(p) == 1;
    var rest := p[1..];
    assert rest[..|rest| - 1] == w;
    assert TrailingWhitespace(rest) == 1;
    var q := [' '] + w;
    assert q[1..] == w;
    assert LeadingWhitespace(q) == 1;
    assert TrailingWhitespace(w) == 0;
  }

  /** Trimming twice is trimming once. */
  lemma TrimIdempotent(s: string)
    ensures Trim(Trim(s)) == Trim(s)
  {
    TrimKeepsUnpadded(Trim(s));
  }

  // ---------------------------------------------------------------------
  // indexOf and splice
  // ---------------------------------------------------------------------

  /** `s.indexOf(x)` with strict equality: the first position holding `x`,
      or -1 when there is none. */
  function IndexOf<T(==)>(s: seq<T>, x: T): (i: int)
    ensures -1 <= i < |s|
    ensures i == -1 <==> x !in s
    ensures 0 <= i ==> s[i] == x && x !in s[..i]
  {
    if s == [] then -1
    else if s[0] == x then 0
    else
      var j := IndexOf(s[1..], x);
      assert s == [s[0]] + s[1..];
      if j == -1 then -1
      else
        assert s[..j + 1] == [s[0]] + s[1..][..j];
        j + 1
  }

  /** The position where `splice(start, …)` begins on an array of length
      `len`: a negative start counts back from the end, and the result is
      clamped into [0, len]. */
  function SpliceStart(len: nat, start: int): (k: nat)
    ensures k <= len
  {
    if start < 0 then (if len + start < 0 then 0 else len + start)
    else if start > len then len
    else start
  }

  /** The array left by `s.splice(start, 1)`: the element at the actual
      start position is removed when there is one. */
  function SpliceOne<T>(s: seq<T>, start: int): (r: seq<T>)
    ensures 0 <= start < |s| ==> r == s[..start] + s[start + 1..]
    ensures start == -1 && s != [] ==> r == s[..|s| - 1]
    ensures s == [] ==> r == []
    ensures start >= |s| ==> r == s
    ensures -|s| <= start < 0 ==> r == s[..|s| + start] + s[|s| + start + 1..]
    ensures start < -|s| && s != [] ==> r == s[1..]
    ensures -|s| <= start < |s| ==> |r| == |s| - 1
    ensures |s| - 1 <= |r| <= |s|
    ensures multiset(r) <= multiset(s)
  {
    var k := SpliceStart(|s|, start);
    if k < |s| then
      assert s == s[..k] + [s[k]] + s[k + 1..];
      s[..k] + s[k + 1..]
    else s
  }
}
