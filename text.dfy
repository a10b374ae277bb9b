/** String helpers shared by the model: the small part of Python's `str`
    behaviour that the modelled code relies on (`in`, `startswith`,
    `endswith`, `lower`, `strip`, `split`, `join`, `str(int)`). */
module Text {

  datatype Option<+T> = None | Some(value: T)

  /** `s.endswith(suffix)`; `s.startswith(prefix)` is Dafny's `prefix <= s`. */
  predicate EndsWith(s: string, suffix: string) {
    |suffix| <= |s| && s[|s| - |suffix|..] == suffix
  }

  /** `sub` occurs in `s` starting at index `i`. */
  predicate OccursAt(s: string, sub: string, i: nat) {
    i + |sub| <= |s| && s[i..i + |sub|] == sub
  }

  /** Python's `sub in s`, scanning `s` from the left. */
  function Contains(s: string, sub: string): (r: bool)
    ensures r <==> exists i: nat :: OccursAt(s, sub, i)
    decreases |s|
  {
    if |sub| > |s| then false
    else if sub <= s then (assert OccursAt(s, sub, 0); true)
    else ContainsStep(s, sub); Contains(s[1..], sub)
  }

  /** When `sub` is not a prefix of `s`, its occurrences in `s` are those in `s[1..]`. */
  lemma ContainsStep(s: string, sub: string)
    requires |s| > 0 && !(sub <= s)
    ensures (exists i: nat :: OccursAt(s, sub, i)) <==> (exists i: nat :: OccursAt(s[1..], sub, i))
  {
    if i: nat :| OccursAt(s, sub, i) {
      assert i >= 1;
      var x, y := s[i..i + |sub|], s[1..][i - 1..i - 1 + |sub|];
      assert forall k :: 0 <= k < |sub| ==> x[k] == y[k];
      assert OccursAt(s[1..], sub, i - 1);
    }
    if i: nat :| OccursAt(s[1..], sub, i) {
      var x, y := s[i + 1..i + 1 + |sub|], s[1..][i..i + |sub|];
      assert forall k :: 0 <= k < |sub| ==> x[k] == y[k];
      assert OccursAt(s, sub, i + 1);
    }
  }

  /** An occurrence inside an occurrence: if `s` contains `a` and `a`
      contains `b`, then `s` contains `b`. */
  lemma ContainsTransitive(s: string, a: string, b: string)
    requires Contains(s, a) && Contains(a, b)
    ensures Contains(s, b)
  {
    var i: nat :| OccursAt(s, a, i);
    var j: nat :| OccursAt(a, b, j);
    var x, y := s[i + j..i + j + |b|], a[j..j + |b|];
    forall k | 0 <= k < |b| ensures x[k] == y[k] {
      assert s[i + j + k] == s[i..i + |a|][j + k];
    }
    assert OccursAt(s, b, i + j);
  }

  /** A string contains each of its prefixes. */
  lemma ContainsPrefix(s: string, p: string)
    requires p <= s
    ensures Contains(s, p)
  {
    assert OccursAt(s, p, 0);
  }

  /** Python's `str.lower()` restricted to ASCII letters. */
  function LowerChar(c: char): char {
    if 'A' <= c <= 'Z' then (c as int + 32) as char else c
  }

  function ToLower(s: string): (r: string)
    ensures |r| == |s|
  {
    if s == [] then [] else [LowerChar(s[0])] + ToLower(s[1..])
  }

  /** Each character of the lower-cased text is the lower-cased character. */
  lemma {:induction false} ToLowerAt(s: string)
    ensures forall i :: 0 <= i < |s| ==> ToLower(s)[i] == LowerChar(s[i])
  {
    if s != [] {
      ToLowerAt(s[1..]);
    }
  }

  /** Lower-casing keeps every occurrence: `sub in s` implies
      `sub.lower() in s.lower()`. */
  lemma ContainsLower(s: string, sub: string)
    requires Contains(s, sub)
    ensures Contains(ToLower(s), ToLower(sub))
  {
    var i: nat :| OccursAt(s, sub, i);
    ToLowerAt(s);
    ToLowerAt(sub);
    var x, y := ToLower(s)[i..i + |sub|], ToLower(sub);
    forall k | 0 <= k < |sub| ensures x[k] == y[k] {
      assert s[i + k] == sub[k];
    }
    assert OccursAt(ToLower(s), ToLower(sub), i);
  }

  /** `Option.get(key, default)`. */
  function GetOr(o: Option<string>, default: string): string {
    match o
    case Some(s) => s
    case None => default
  }

  /** How an f-string renders an optional string (`None` prints as "None"). */
  function Show(o: Option<string>): string {
    GetOr(o, "None")
  }

  /** The characters Python's `str.isspace()` accepts, which `strip()` removes. */
  predicate IsSpace(c: char) {
    var n := c as int;
    (9 <= n <= 13) || (28 <= n <= 32) || n == 0x85 || n == 0xA0 || n == 0x1680
    || (0x2000 <= n <= 0x200A) || n == 0x2028 || n == 0x2029 || n == 0x202F
    || n == 0x205F || n == 0x3000
  }

  /** `s.lstrip()`: the suffix of `s` left after its leading white space. */
  function TrimLeft(s: string): (r: string)
    ensures |r| <= |s| && r == s[|s| - |r|..]
    ensures r == [] || !IsSpace(r[0])
    ensures forall i :: 0 <= i < |s| - |r| ==> IsSpace(s[i])
    decreases |s|
  {
    if |s| > 0 && IsSpace(s[0]) then TrimLeft(s[1..]) else s
  }

  /** `s.rstrip()`: the prefix of `s` left after its trailing white space. */
  function TrimRight(s: string): (r: string)
    ensures r <= s
    ensures r == [] || !IsSpace(r[|r| - 1])
    ensures forall i :: |r| <= i < |s| ==> IsSpace(s[i])
    decreases |s|
  {
    if |s| > 0 && IsSpace(s[|s| - 1]) then TrimRight(s[..|s| - 1]) else s
  }

  /** `s.strip()`. */
  function Strip(s: string): (r: string)
    ensures |r| <= |s|
    ensures r == [] || (!IsSpace(r[0]) && !IsSpace(r[|r| - 1]))
  {
    TrimRight(TrimLeft(s))
  }

  lemma EndsWithConcat(prefix: string, suffix: string)
    ensures EndsWith(prefix + suffix, suffix)
  {
    assert (prefix + suffix)[|prefix|..] == suffix;
  }

  /** White space in front of `b` is all `lstrip` removes. */
  lemma {:induction false} TrimLeftSpaces(a: string, b: string)
    requires forall i :: 0 <= i < |a| ==> IsSpace(a[i])
    ensures TrimLeft(a + b) == TrimLeft(b)
    decreases |a|
  {
    if a != [] {
      assert (a + b)[1..] == a[1..] + b;
      TrimLeftSpaces(a[1..], b);
    } else {
      assert a + b == b;
    }
  }

  /** The newline is white space. */
  lemma NewlineIsSpace()
    ensures IsSpace('\n')
  {
    assert '\n' as int == 10;
  }

  /** A newline in front of `b` is removed by `lstrip`. */
  lemma TrimLeftNewline(b: string)
    ensures TrimLeft(['\n'] + b) == TrimLeft(b)
  {
    NewlineIsSpace();
    assert (['\n'] + b)[1..] == b;
  }


  /** When `a` holds a non-space character, `lstrip` stops inside `a`. */
  lemma {:induction false} TrimLeftSolid(a: string, b: string)
    requires exists i :: 0 <= i < |a| && !IsSpace(a[i])
    ensures TrimLeft(a + b) == TrimLeft(a) + b
    decreases |a|
  {
    if IsSpace(a[0]) {
      assert (a + b)[1..] == a[1..] + b;
      var i :| 0 <= i < |a| && !IsSpace(a[i]);
      assert i > 0 && !IsSpace(a[1..][i - 1]);
      TrimLeftSolid(a[1..], b);
    }
  }

  /** White space after `a` is all `rstrip` removes. */
  lemma {:induction false} TrimRightSpaces(a: string, b: string)
    requires forall i :: 0 <= i < |b| ==> IsSpace(b[i])
    ensures TrimRight(a + b) == TrimRight(a)
    decreases |b|
  {
    if b != [] {
      assert (a + b)[..|a + b| - 1] == a + b[..|b| - 1];
      TrimRightSpaces(a, b[..|b| - 1]);
    } else {
      assert a + b == a;
    }
  }

  /** Non-space ends padded with white space: `strip` gives the middle back. */
  lemma StripPaddedSolid(left: string, b: string, right: string)
    requires b != [] && !IsSpace(b[0]) && !IsSpace(b[|b| - 1])
    requires forall i :: 0 <= i < |left| ==> IsSpace(left[i])
    requires forall i :: 0 <= i < |right| ==> IsSpace(right[i])
    ensures Strip(left + b + right) == b
  {
    assert left + b + right == left + (b + right);
    TrimLeftSpaces(left, b + right);
    TrimLeftSolid(b, right);
    TrimRightSpaces(b, right);
    assert TrimRight(b) == b;
  }

  /** White space alone strips to nothing. */
  lemma StripBlank(left: string, right: string)
    requires forall i :: 0 <= i < |left| ==> IsSpace(left[i])
    requires forall i :: 0 <= i < |right| ==> IsSpace(right[i])
    ensures Strip(left + right) == []
  {
    TrimLeftSpaces(left, right);
    assert right == right + [];
    TrimLeftSpaces(right, []);
  }

  /** A string that `strip` leaves alone keeps that property when white
      space is added around it and stripped again. */
  lemma StripPadded(left: string, b: string, right: string)
    requires Strip(b) == b
    requires forall i :: 0 <= i < |left| ==> IsSpace(left[i])
    requires forall i :: 0 <= i < |right| ==> IsSpace(right[i])
    ensures Strip(left + b + right) == b
  {
    if b == [] {
      assert left + b + right == left + right;
      StripBlank(left, right);
    } else {
      StripPaddedSolid(left, b, right);
    }
  }

  /** A string with no white space at either end is its own `strip`. */
  lemma StripSolidEnds(s: string)
    requires s != [] && !IsSpace(s[0]) && !IsSpace(s[|s| - 1])
    ensures Strip(s) == s
  {
    assert TrimLeft(s) == s;
  }

  /** A prefix made of non-space characters survives `rstrip`. */
  lemma TrimRightKeepsSolidPrefix(s: string, p: string)
    requires p <= s
    requires forall i :: 0 <= i < |p| ==> !IsSpace(p[i])
    ensures p <= TrimRight(s)
  {
    var r := TrimRight(s);
    if |p| > 0 {
      assert s[|p| - 1] == p[|p| - 1];
      assert !IsSpace(s[|p| - 1]);
    }
    assert |r| >= |p|;
    assert r[..|p|] == s[..|p|];
  }

  /** `s.split(sep)` for a one-character separator: never empty, and no
      part contains the separator. */
  function Split(s: string, sep: char): (parts: seq<string>)
    ensures |parts| >= 1
    ensures forall k :: 0 <= k < |parts| ==> sep !in parts[k]
    decreases |s|
  {
    if s == [] then [[]]
    else
      var rest := Split(s[1..], sep);
      if s[0] == sep then [[]] + rest
      else [[s[0]] + rest[0]] + rest[1..]
  }

  /** `sep.join(parts)` for a one-character separator. */
  function Join(parts: seq<string>, sep: char): string
    decreases |parts|
  {
    if parts == [] then []
    else if |parts| == 1 then parts[0]
    else parts[0] + [sep] + Join(parts[1..], sep)
  }

  /** Joining the parts of a split gives the original string back. */
  lemma {:induction false} JoinSplit(s: string, sep: char)
    ensures Join(Split(s, sep), sep) == s
    decreases |s|
  {
    if s != [] {
      JoinSplit(s[1..], sep);
      var rest := Split(s[1..], sep);
      if s[0] == sep {
        assert Split(s, sep) == [[]] + rest;
        assert ([[]] + rest)[1..] == rest;
      } else {
        var parts := [[s[0]] + rest[0]] + rest[1..];
        assert Split(s, sep) == parts;
        if |rest| == 1 {
          assert Join(rest, sep) == rest[0];
        } else {
          assert Join(rest, sep) == rest[0] + [sep] + Join(rest[1..], sep);
          assert parts[1..] == rest[1..];
        }
      }
    }
  }

  /** Splitting a join of separator-free parts gives the parts back. */
  lemma {:induction false} SplitJoin(parts: seq<string>, sep: char)
    requires |parts| >= 1
    requires forall k :: 0 <= k < |parts| ==> sep !in parts[k]
    ensures Split(Join(parts, sep), sep) == parts
    decreases |parts|, |parts[0]|
  {
    if |parts| == 1 {
      SplitSolid(parts[0], sep);
    } else if parts[0] == [] {
      var tail := parts[1..];
      SplitJoin(tail, sep);
      assert Join(parts, sep) == [sep] + Join(tail, sep);
      assert ([sep] + Join(tail, sep))[1..] == Join(tail, sep);
      assert parts == [[]] + tail;
    } else {
      var p := parts[0];
      var shorter := [p[1..]] + parts[1..];
      assert sep !in p[1..] by { assert forall c :: c in p[1..] ==> c in p; }
      SplitJoin(shorter, sep);
      var s := Join(parts, sep);
      assert s == [p[0]] + Join(shorter, sep) by {
        assert p == [p[0]] + p[1..];
        assert shorter[1..] == parts[1..];
      }
      assert s[1..] == Join(shorter, sep);
      assert s[0] == p[0] && p[0] != sep by { assert p[0] in p; }
      var rest := Split(s[1..], sep);
      assert rest == shorter;
      assert [[s[0]] + rest[0]] + rest[1..] == parts by {
        assert [s[0]] + rest[0] == p;
        assert rest[1..] == parts[1..];
      }
    }
  }

  /** Splitting at the first separator: a separator-free head becomes the
      first part. */
  lemma {:induction false} SplitCons(head: string, sep: char, tail: string)
    requires sep !in head
    ensures Split(head + [sep] + tail, sep) == [head] + Split(tail, sep)
    decreases |head|
  {
    if head == [] {
      assert head + [sep] + tail == [sep] + tail;
      assert ([sep] + tail)[1..] == tail;
    } else {
      var s := head + [sep] + tail;
      assert sep !in head[1..] by { assert forall c :: c in head[1..] ==> c in head; }
      SplitCons(head[1..], sep, tail);
      assert s[1..] == head[1..] + [sep] + tail;
      assert s[0] == head[0] && head[0] in head;
      assert [s[0]] + head[1..] == head;
    }
  }

  /** A string without the separator splits into itself alone. */
  lemma {:induction false} SplitSolid(s: string, sep: char)
    requires sep !in s
    ensures Split(s, sep) == [s]
    decreases |s|
  {
    if s != [] {
      assert sep !in s[1..] by { assert forall c :: c in s[1..] ==> c in s; }
      SplitSolid(s[1..], sep);
      assert s[0] in s;
      assert [s[0]] + s[1..] == s;
    }
  }

  function DigitChar(d: nat): char
    requires d < 10
  {
    "0123456789"[d]
  }

  /** `str(n)` for a non-negative integer. */
  function NatToString(n: nat): (r: string)
    ensures |r| >= 1
    ensures forall i :: 0 <= i < |r| ==> '0' <= r[i] <= '9'
  {
    if n < 10 then [DigitChar(n)] else NatToString(n / 10) + [DigitChar(n % 10)]
  }

  /** `str(n)` for any integer. */
  function IntToString(n: int): string {
    if n < 0 then "-" + NatToString(-n) else NatToString(n)
  }
}
