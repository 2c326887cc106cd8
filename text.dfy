/** String helpers shared by the request handlers: optional request fields and
    their JavaScript truthiness, ASCII lower-casing, substring search, the
    `String.prototype.split` of a non-empty separator, and decimal rendering. */
module Text {

  datatype Option<+T> = None | Some(value: T)

  /** A request field that may be absent is truthy in JavaScript exactly when it
      is present and not the empty string. */
  predicate Truthy(field: Option<string>) {
    field.Some? && field.value != ""
  }

  predicate IsUpper(c: char) {
    'A' <= c <= 'Z'
  }

  function LowerChar(c: char): char {
    if IsUpper(c) then (c as int - 'A' as int + 'a' as int) as char else c
  }

  /** `toLowerCase` on ASCII letters. */
  function ToLower(s: string): (r: string)
    ensures |r| == |s|
    decreases |s|
  {
    if s == "" then "" else [LowerChar(s[0])] + ToLower(s[1..])
  }

  /** Lower-casing keeps the length, leaves no capital letter, keeps every
      other character and moves each capital to its small letter. */
  lemma {:induction false} ToLowerAt(s: string, i: nat)
    requires i < |s|
    ensures !IsUpper(ToLower(s)[i])
    ensures !IsUpper(s[i]) ==> ToLower(s)[i] == s[i]
    ensures IsUpper(s[i]) ==> ToLower(s)[i] as int == s[i] as int + 32
    decreases |s|
  {
    if i > 0 {
      ToLowerAt(s[1..], i - 1);
    }
  }

  lemma {:induction false} ToLowerIdempotent(s: string)
    ensures ToLower(ToLower(s)) == ToLower(s)
    decreases |s|
  {
    if s != "" {
      ToLowerIdempotent(s[1..]);
      var t := ToLower(s);
      assert t[1..] == ToLower(s[1..]);
    }
  }

  lemma ToLowerEmpty(s: string)
    ensures ToLower(s) == "" <==> s == ""
  {
  }

  // ---------------------------------------------------------------- search

  /** `p` occurs in `s` starting at index `i`. */
  predicate OccursAt(s: string, p: string, i: nat) {
    i + |p| <= |s| && s[i..i + |p|] == p
  }

  /** `String.prototype.includes`. */
  predicate Contains(s: string, p: string)
    decreases |s|
  {
    p <= s || (|s| > 0 && Contains(s[1..], p))
  }

  lemma OccursShift(s: string, p: string, i: nat)
    requires |s| > 0
    ensures OccursAt(s, p, i + 1) <==> OccursAt(s[1..], p, i)
  {
    if i + 1 + |p| <= |s| {
      assert s[1..][i..i + |p|] == s[i + 1..i + 1 + |p|];
    }
  }

  lemma {:induction false} ContainsIff(s: string, p: string)
    ensures Contains(s, p) <==> exists i: nat :: OccursAt(s, p, i)
    decreases |s|
  {
    if p <= s {
      assert OccursAt(s, p, 0);
    } else if |s| > 0 {
      ContainsIff(s[1..], p);
      forall i: nat ensures OccursAt(s, p, i + 1) <==> OccursAt(s[1..], p, i) {
        OccursShift(s, p, i);
      }
      if Contains(s[1..], p) {
        var i: nat :| OccursAt(s[1..], p, i);
        assert OccursAt(s, p, i + 1);
      } else {
        forall i: nat ensures !OccursAt(s, p, i) {
          if i > 0 {
            assert !OccursAt(s[1..], p, i - 1);
          }
        }
      }
    }
  }

  // ----------------------------------------------------------- split / join

  /** `s.split(sep)` for a non-empty separator: occurrences are taken from the
      left, without overlap, and the pieces between them are returned. */
  function Split(s: string, sep: string): (parts: seq<string>)
    requires sep != ""
    ensures |parts| >= 1
    decreases |s|
  {
    if |s| < |sep| then [s]
    else if s[..|sep|] == sep then [""] + Split(s[|sep|..], sep)
    else
      var rest := Split(s[1..], sep);
      [[s[0]] + rest[0]] + rest[1..]
  }

  /** `parts.join(sep)`. */
  function Join(parts: seq<string>, sep: string): string
    decreases |parts|
  {
    if |parts| == 0 then ""
    else if |parts| == 1 then parts[0]
    else parts[0] + sep + Join(parts[1..], sep)
  }

  /** The number of separators `split` consumes, counted directly. */
  function Occurrences(s: string, sep: string): nat
    requires sep != ""
    decreases |s|
  {
    if |s| < |sep| then 0
    else if s[..|sep|] == sep then 1 + Occurrences(s[|sep|..], sep)
    else Occurrences(s[1..], sep)
  }

  lemma JoinPrepend(x: string, parts: seq<string>, sep: string)
    requires |parts| >= 1
    ensures Join([x + parts[0]] + parts[1..], sep) == x + Join(parts, sep)
  {
    var q := [x + parts[0]] + parts[1..];
    if |parts| > 1 {
      assert q[1..] == parts[1..];
    }
  }

  lemma JoinCons(x: string, parts: seq<string>, sep: string)
    requires |parts| >= 1
    ensures Join([x] + parts, sep) == x + sep + Join(parts, sep)
  {
    assert ([x] + parts)[1..] == parts;
  }

  lemma JoinEmptyHead(parts: seq<string>, sep: string, t: string)
    requires |parts| >= 1 && Join(parts, sep) == t
    ensures Join([""] + parts, sep) == sep + t
  {
    JoinCons("", parts, sep);
    assert "" + sep == sep;
  }

  lemma SplitAfterSeparator(sep: string, t: string)
    requires sep != ""
    ensures Split(sep + t, sep) == [""] + Split(t, sep)
  {
    var s := sep + t;
    assert s[..|sep|] == sep && s[|sep|..] == t;
  }

  lemma JoinSplitAfterSeparator(sep: string, t: string)
    requires sep != ""
    requires Join(Split(t, sep), sep) == t
    ensures Join(Split(sep + t, sep), sep) == sep + t
  {
    SplitAfterSeparator(sep, t);
    JoinEmptyHead(Split(t, sep), sep, t);
  }

  lemma JoinSplitElsewhere(s: string, sep: string)
    requires sep != "" && |s| >= |sep| && s[..|sep|] != sep
    requires Join(Split(s[1..], sep), sep) == s[1..]
    ensures Join(Split(s, sep), sep) == s
  {
    JoinPrepend([s[0]], Split(s[1..], sep), sep);
    assert s == [s[0]] + s[1..];
  }

  /** Joining the pieces with the separator gives back the original string. */
  lemma {:induction false} JoinSplit(s: string, sep: string)
    requires sep != ""
    ensures Join(Split(s, sep), sep) == s
    decreases |s|
  {
    if |s| < |sep| {
    } else if s[..|sep|] == sep {
      JoinSplit(s[|sep|..], sep);
      JoinSplitAfterSeparator(sep, s[|sep|..]);
      assert s == sep + s[|sep|..];
    } else {
      JoinSplit(s[1..], sep);
      JoinSplitElsewhere(s, sep);
    }
  }

  /** `s.split(sep).length - 1` is the number of separators in `s`. */
  lemma {:induction false} SplitLength(s: string, sep: string)
    requires sep != ""
    ensures |Split(s, sep)| == Occurrences(s, sep) + 1
    decreases |s|
  {
    if |s| < |sep| {
    } else if s[..|sep|] == sep {
      SplitLength(s[|sep|..], sep);
    } else {
      SplitLength(s[1..], sep);
    }
  }

  /** Splitting on one character leaves no piece containing it. */
  lemma {:induction false} SplitCharPieces(s: string, c: char)
    ensures forall k :: 0 <= k < |Split(s, [c])| ==> c !in Split(s, [c])[k]
    decreases |s|
  {
    if |s| < 1 {
    } else if s[..1] == [c] {
      SplitCharPieces(s[1..], c);
    } else {
      SplitCharPieces(s[1..], c);
      assert s[0] != c by { assert s[..1] == [s[0]]; }
    }
  }

  /** A leading piece without the separator character splits off unchanged. */
  lemma {:induction false} SplitCharAfterPrefix(a: string, c: char, z: string)
    requires c !in a
    ensures Split(a + [c] + z, [c]) == [a] + Split(z, [c])
    decreases |a|
  {
    var s := a + [c] + z;
    if |a| == 0 {
      assert s[..1] == [c];
      assert s[1..] == z;
    } else {
      assert s[..1] == [a[0]];
      assert s[1..] == a[1..] + [c] + z;
      SplitCharAfterPrefix(a[1..], c, z);
      assert [a[0]] + a[1..] == a;
    }
  }

  /** The first piece of `t + z` is `t` when `t` holds no separator character
      and `z` is empty or starts with one. */
  lemma {:induction false} SplitCharFirst(t: string, c: char, z: string)
    requires c !in t
    requires z == "" || z[0] == c
    ensures Split(t + z, [c])[0] == t
    decreases |t|
  {
    var s := t + z;
    if |t| == 0 {
      assert s == z;
      if z != "" { assert s[..1] == [c]; }
    } else {
      assert s[..1] == [t[0]];
      assert s[1..] == t[1..] + z;
      SplitCharFirst(t[1..], c, z);
      assert [t[0]] + t[1..] == t;
    }
  }

  lemma {:induction false} SplitCharSingle(s: string, c: char)
    ensures |Split(s, [c])| == 1 <==> c !in s
    decreases |s|
  {
    if |s| < 1 {
    } else if s[..1] == [c] {
      assert s[0] == c;
    } else {
      assert s[0] != c by { assert s[..1] == [s[0]]; }
      SplitCharSingle(s[1..], c);
      assert c in s <==> c in s[1..] by { assert s == [s[0]] + s[1..]; }
    }
  }

  // ------------------------------------------------------ decimal rendering

  function DigitChar(d: nat): char
    requires d < 10
  {
    ('0' as int + d) as char
  }

  /** The decimal digits of `n`, most significant first. */
  function NatToString(n: nat): (s: string)
    ensures |s| >= 1
    ensures forall i :: 0 <= i < |s| ==> '0' <= s[i] <= '9'
    ensures |s| > 1 ==> s[0] != '0'
    decreases n
  {
    if n < 10 then [DigitChar(n)] else NatToString(n / 10) + [DigitChar(n % 10)]
  }

  /** The value denoted by a string of decimal digits. */
  function DigitsValue(s: string): int
    decreases |s|
  {
    if s == "" then 0 else 10 * DigitsValue(s[..|s| - 1]) + (s[|s| - 1] as int - '0' as int)
  }

  lemma {:induction false} NatToStringValue(n: nat)
    ensures DigitsValue(NatToString(n)) == n
    decreases n
  {
    if n >= 10 {
      NatToStringValue(n / 10);
      var s := NatToString(n);
      assert s[..|s| - 1] == NatToString(n / 10);
    }
  }

  /** Template-literal rendering of an integer: an optional minus sign, then
      the digits of its magnitude. */
  function IntToString(i: int): (s: string)
    ensures |s| >= 1
    ensures i < 0 <==> s[0] == '-'
  {
    if i < 0 then "-" + NatToString(-i) else NatToString(i)
  }

  /** The digits after the optional sign denote the magnitude. */
  lemma IntToStringValue(i: int)
    ensures i >= 0 ==> DigitsValue(IntToString(i)) == i
    ensures i < 0 ==> DigitsValue(IntToString(i)[1..]) == -i
  {
    if i < 0 {
      NatToStringValue(-i);
      assert IntToString(i)[1..] == NatToString(-i);
    } else {
      NatToStringValue(i);
    }
  }
}
