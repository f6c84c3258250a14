/** Shared vocabulary: optional values, bytes, and the handful of Python string
    operations the proxy logic relies on (str.split, str.join, str.strip,
    str.replace on one character, str.lower on ASCII, str(int)), plus
    url_path_join as the hosting notebook server defines it. */
module Common {

  datatype Option<+T> = None | Some(value: T) {
    function GetOr(default: T): T {
      match this
      case Some(v) => v
      case None => default
    }
  }

  /** The Python exceptions the modelled code raises or catches. */
  datatype Error =
    | TypeError(msg: string)
    | ValueError
    | IndexError
    | KeyError
    | AttributeError
    | HttpError(code: int, msg: string)
    | OSError
    | Raised(what: string)

  /** A returned value or a raised exception. */
  datatype Result<+T> = Ok(value: T) | Err(error: Error)

  /** A byte of a Python `bytes` object. */
  newtype byte = x: int | 0 <= x < 256

  type bytes = seq<byte>

  predicate StartsWith(s: string, p: string) {
    |p| <= |s| && s[..|p|] == p
  }

  predicate EndsWith(s: string, p: string) {
    |p| <= |s| && s[|s| - |p|..] == p
  }

  /** Number of occurrences of `c` in `s`. */
  function CountChar(s: string, c: char): nat {
    if |s| == 0 then 0 else (if s[0] == c then 1 else 0) + CountChar(s[1..], c)
  }

  /** Python's `s.split(c)` for a one-character separator: never empty, and no
      part contains the separator. */
  function Split(s: string, c: char): (parts: seq<string>)
    ensures |parts| == CountChar(s, c) + 1
    ensures forall i :: 0 <= i < |parts| ==> c !in parts[i]
  {
    if |s| == 0 then [""]
    else
      var rest := Split(s[1..], c);
      if s[0] == c then [""] + rest
      else [[s[0]] + rest[0]] + rest[1..]
  }

  /** Python's `sep.join(parts)`. */
  function Join(parts: seq<string>, sep: string): string {
    if |parts| == 0 then ""
    else if |parts| == 1 then parts[0]
    else parts[0] + sep + Join(parts[1..], sep)
  }

  /** Joining the parts of a split with the separator gives back the string. */
  lemma {:induction false} JoinSplit(s: string, c: char)
    ensures Join(Split(s, c), [c]) == s
  {
    if |s| > 0 {
      var rest := Split(s[1..], c);
      JoinSplit(s[1..], c);
      if s[0] != c {
        var parts := Split(s, c);
        assert parts == [[s[0]] + rest[0]] + rest[1..];
        if |rest| == 1 {
          assert Join(parts, [c]) == [s[0]] + rest[0];
        } else {
          assert parts[1..] == rest[1..];
          assert Join(parts, [c]) == [s[0]] + rest[0] + [c] + Join(rest[1..], [c]);
        }
      }
    }
  }

  /** The characters of `s` before the first `c` (all of `s` when there is
      none). */
  function Before(s: string, c: char): (r: string)
    ensures StartsWith(s, r) && c !in r
    ensures |r| < |s| ==> s[|r|] == c
  {
    if |s| == 0 || s[0] == c then "" else [s[0]] + Before(s[1..], c)
  }

  /** `s.split(c)[0]` is the part of `s` before the first separator. */
  lemma {:induction false} FirstPartIsBefore(s: string, c: char)
    ensures Split(s, c)[0] == Before(s, c)
  {
    if |s| > 0 && s[0] != c {
      FirstPartIsBefore(s[1..], c);
    }
  }

  /** The part before `c` of `a + b`, where `a` has no `c` and `b` is empty
      or starts with `c`, is `a`. */
  lemma {:induction false} BeforeAbsent(a: string, b: string, c: char)
    requires c !in a && (b == "" || b[0] == c)
    ensures Before(a + b, c) == a
  {
    if |a| == 0 {
      assert a + b == b;
    } else {
      assert (a + b)[0] == a[0] && (a + b)[1..] == a[1..] + b;
      assert a[0] in a;
      BeforeAbsent(a[1..], b, c);
    }
  }

  /** `s.split(c)` of a string with separators gives back the parts it was
      joined from. */
  lemma {:induction false} SplitJoin(parts: seq<string>, c: char)
    requires |parts| > 0 && forall i :: 0 <= i < |parts| ==> c !in parts[i]
    ensures Split(Join(parts, [c]), c) == parts
  {
    if |parts| == 1 {
      SplitNoSep(parts[0], c);
    } else {
      SplitJoin(parts[1..], c);
      SplitConcatSep(parts[0], Join(parts[1..], [c]), c);
      assert [parts[0]] + parts[1..] == parts;
    }
  }

  /** A string without the separator splits into itself. */
  lemma {:induction false} SplitNoSep(s: string, c: char)
    requires c !in s
    ensures Split(s, c) == [s]
  {
    if |s| > 0 {
      assert c !in s[1..] by {
        assert forall i :: 0 <= i < |s[1..]| ==> s[1..][i] == s[i + 1];
      }
      SplitNoSep(s[1..], c);
      assert [s[0]] + s[1..] == s;
    }
  }

  /** Splitting `a + c + b`, with `c` not in `a`, splits off `a`. */
  lemma {:induction false} SplitConcatSep(a: string, b: string, c: char)
    requires c !in a
    ensures Split(a + [c] + b, c) == [a] + Split(b, c)
  {
    if |a| == 0 {
      assert a + [c] + b == [c] + b;
      assert ([c] + b)[1..] == b;
    } else {
      var s := a + [c] + b;
      assert s[0] == a[0] && s[1..] == a[1..] + [c] + b;
      assert c !in a[1..] by {
        assert forall i :: 0 <= i < |a[1..]| ==> a[1..][i] == a[i + 1];
      }
      SplitConcatSep(a[1..], b, c);
      assert [a[0]] + a[1..] == a;
    }
  }

  /** "a/b".split("/") == ["a", "b"] */
  lemma SplitTwo(a: string, b: string, c: char)
    requires c !in a && c !in b
    ensures Split(a + [c] + b, c) == [a, b]
  {
    SplitConcatSep(a, b, c);
    SplitNoSep(b, c);
  }

  /** Python's `s.strip(c)`: drop every leading and trailing `c`. */
  function StripChar(s: string, c: char): (r: string)
    ensures |r| <= |s|
    ensures |r| > 0 ==> r[0] != c && r[|r| - 1] != c
    decreases |s|
  {
    if |s| == 0 then ""
    else if s[0] == c then StripChar(s[1..], c)
    else if s[|s| - 1] == c then StripChar(s[..|s| - 1], c)
    else s
  }

  /** Python's `s.replace(a, b)` for one-character arguments. */
  function ReplaceChar(s: string, a: char, b: char): (r: string)
    ensures |r| == |s|
    ensures forall i :: 0 <= i < |s| ==> r[i] == if s[i] == a then b else s[i]
  {
    if |s| == 0 then "" else [if s[0] == a then b else s[0]] + ReplaceChar(s[1..], a, b)
  }

  /** Replacing a character that does not occur changes nothing. */
  lemma {:induction false} ReplaceCharAbsent(s: string, a: char, b: char)
    requires a !in s
    ensures ReplaceChar(s, a, b) == s
  {
    if |s| > 0 {
      ReplaceCharAbsent(s[1..], a, b);
    }
  }

  /** Replacing works piece by piece. */
  lemma {:induction false} ReplaceCharConcat(x: string, y: string, a: char, b: char)
    ensures ReplaceChar(x + y, a, b) == ReplaceChar(x, a, b) + ReplaceChar(y, a, b)
  {
    if |x| > 0 {
      assert (x + y)[0] == x[0];
      assert (x + y)[1..] == x[1..] + y;
      ReplaceCharConcat(x[1..], y, a, b);
    } else {
      assert x + y == y;
    }
  }

  /** The one occurrence of `a` between two pieces without it is replaced. */
  lemma ReplaceCharOne(x: string, y: string, a: char, b: char)
    requires a !in x && a !in y
    ensures ReplaceChar(x + [a] + y, a, b) == x + [b] + y
  {
    calc {
      ReplaceChar(x + [a] + y, a, b);
      { ReplaceCharConcat(x + [a], y, a, b); }
      ReplaceChar(x + [a], a, b) + ReplaceChar(y, a, b);
      { ReplaceCharConcat(x, [a], a, b); }
      ReplaceChar(x, a, b) + ReplaceChar([a], a, b) + ReplaceChar(y, a, b);
      { ReplaceCharAbsent(x, a, b); ReplaceCharAbsent(y, a, b); }
      x + ReplaceChar([a], a, b) + y;
      { ReplaceCharSingle(a, b); }
      x + [b] + y;
    }
  }

  /** The string `a` alone becomes `b`. */
  lemma ReplaceCharSingle(a: char, b: char)
    ensures ReplaceChar([a], a, b) == [b]
  {
    var r := ReplaceChar([a], a, b);
    assert |r| == 1 && r[0] == b;
  }

  /** `str.lower()` restricted to ASCII letters; other characters are kept. */
  function LowerAscii(s: string): (r: string)
    ensures |r| == |s|
    ensures forall i :: 0 <= i < |s| ==>
      r[i] == if 'A' <= s[i] <= 'Z' then (s[i] as int + 32) as char else s[i]
  {
    if |s| == 0 then ""
    else [if 'A' <= s[0] <= 'Z' then (s[0] as int + 32) as char else s[0]] + LowerAscii(s[1..])
  }

  // ---------------------------------------------------------------------
  // str(int)

  function DigitChar(d: nat): char
    requires d < 10
  {
    ('0' as int + d) as char
  }

  predicate IsDigit(ch: char) {
    '0' <= ch <= '9'
  }

  predicate AllDigits(s: string) {
    forall i :: 0 <= i < |s| ==> IsDigit(s[i])
  }

  /** Decimal digits of `n`, most significant first, no leading zero. */
  function NatToString(n: nat): (s: string)
    ensures |s| > 0 && AllDigits(s)
    ensures |s| > 1 ==> s[0] != '0'
    decreases n
  {
    if n < 10 then [DigitChar(n)] else NatToString(n / 10) + [DigitChar(n % 10)]
  }

  /** The number a string of decimal digits denotes. */
  function DigitsValue(s: string): nat
    requires AllDigits(s)
  {
    if |s| == 0 then 0 else DigitsValue(s[..|s| - 1]) * 10 + (s[|s| - 1] as int - '0' as int)
  }

  /** Reading back the decimal digits of `n` gives `n`. */
  lemma {:induction false} NatToStringRoundTrip(n: nat)
    ensures DigitsValue(NatToString(n)) == n
  {
    if n >= 10 {
      NatToStringRoundTrip(n / 10);
      var s := NatToString(n);
      assert s[..|s| - 1] == NatToString(n / 10);
    }
  }

  /** Python's `str(i)` for an `int`. */
  function IntToString(i: int): (s: string)
    ensures |s| > 0
    ensures i < 0 <==> s[0] == '-'
  {
    if i < 0 then "-" + NatToString(-i) else NatToString(i)
  }

  /** `str` is injective on integers. */
  lemma IntToStringInjective(i: int, j: int)
    requires IntToString(i) == IntToString(j)
    ensures i == j
  {
    if i >= 0 {
      NatToStringRoundTrip(i);
      NatToStringRoundTrip(j);
    } else {
      var si, sj := IntToString(i), IntToString(j);
      assert si[1..] == NatToString(-i) && sj[1..] == NatToString(-j);
      NatToStringRoundTrip(-i);
      NatToStringRoundTrip(-j);
    }
  }

  // ---------------------------------------------------------------------
  // url_path_join

  function NonEmpty(parts: seq<string>): (r: seq<string>)
    ensures forall i :: 0 <= i < |r| ==> r[i] != ""
    ensures |r| <= |parts|
  {
    if |parts| == 0 then []
    else if parts[0] == "" then NonEmpty(parts[1..])
    else [parts[0]] + NonEmpty(parts[1..])
  }

  function StripAll(parts: seq<string>): (r: seq<string>)
    ensures |r| == |parts|
    ensures forall i :: 0 <= i < |parts| ==> r[i] == StripChar(parts[i], '/')
  {
    if |parts| == 0 then [] else [StripChar(parts[0], '/')] + StripAll(parts[1..])
  }

  /** url_path_join of the notebook server: strip '/' from every piece, join the
      non-empty ones with '/', keep a leading '/' of the first piece and a
      trailing '/' of the last, and collapse a result of "//" to "/". */
  function UrlPathJoin(pieces: seq<string>): (r: string)
    requires |pieces| > 0
    ensures StartsWith(pieces[0], "/") ==> StartsWith(r, "/")
    ensures EndsWith(pieces[|pieces| - 1], "/") ==> EndsWith(r, "/")
  {
    var initial := StartsWith(pieces[0], "/");
    var final := EndsWith(pieces[|pieces| - 1], "/");
    var joined := Join(NonEmpty(StripAll(pieces)), "/");
    var withInitial := if initial then "/" + joined else joined;
    var withFinal := if final then withInitial + "/" else withInitial;
    if withFinal == "//" then "/" else withFinal
  }

  /** A route pattern as the pieces handed to `url_path_join`. */
  datatype UrlPattern = Joined(pieces: seq<string>) {
    /** The pattern's text. */
    function Text(): string
      requires |pieces| > 0
    {
      UrlPathJoin(pieces)
    }
  }

  /** A path segment: non-empty and free of '/'. */
  predicate Segment(s: string) {
    s != "" && '/' !in s
  }

  /** Joining an absolute base made of one segment with a further segment
      gives the plain '/'-separated path. */
  lemma UrlPathJoinTwo(a: string, b: string)
    requires Segment(a) && Segment(b)
    ensures UrlPathJoin(["/" + a, b]) == "/" + a + "/" + b
  {
    var pieces := ["/" + a, b];
    var joined := a + "/" + b;
    assert Join(NonEmpty(StripAll(pieces)), "/") == joined by {
      StripLeadingSlash(a);
      StripSegment(b);
      assert StripAll(pieces) == [a, b];
      assert NonEmpty([a, b]) == [a, b] by {
        assert [a, b][1..] == [b];
        assert NonEmpty([b]) == [b];
      }
      assert [a, b][1..] == [b];
    }
    assert !EndsWith(pieces[1], "/") by {
      NotEndsWithSlash(b);
    }
    assert joined[0] != '/' by {
      assert joined[0] == a[0] && a[0] in a;
    }
    UrlPathJoinAbsolute(pieces, joined);
  }

  /** The same for a base segment followed by two segments. */
  lemma UrlPathJoinThree(a: string, b: string, c: string)
    requires Segment(a) && Segment(b) && Segment(c)
    ensures UrlPathJoin(["/" + a, b, c]) == "/" + a + "/" + b + "/" + c
  {
    var pieces := ["/" + a, b, c];
    var joined := a + "/" + b + "/" + c;
    assert Join(NonEmpty(StripAll(pieces)), "/") == joined by {
      StripLeadingSlash(a);
      StripSegment(b);
      StripSegment(c);
      assert StripAll(pieces) == [a, b, c];
      NonEmptyThree(a, b, c);
      JoinThree(a, b, c);
    }
    assert !EndsWith(pieces[2], "/") by {
      NotEndsWithSlash(c);
    }
    assert joined[0] != '/' by {
      assert joined[0] == a[0] && a[0] in a;
    }
    UrlPathJoinAbsolute(pieces, joined);
  }

  /** An absolute join whose last piece has no trailing '/' is '/' followed
      by the joined parts. */
  lemma UrlPathJoinAbsolute(pieces: seq<string>, joined: string)
    requires |pieces| > 0
    requires StartsWith(pieces[0], "/") && !EndsWith(pieces[|pieces| - 1], "/")
    requires Join(NonEmpty(StripAll(pieces)), "/") == joined
    requires |joined| > 0 && joined[0] != '/'
    ensures UrlPathJoin(pieces) == "/" + joined
  {
    assert ("/" + joined)[1] == joined[0];
  }

  lemma NonEmptyThree(a: string, b: string, c: string)
    requires a != "" && b != "" && c != ""
    ensures NonEmpty([a, b, c]) == [a, b, c]
  {
    assert [a, b, c][1..] == [b, c];
    assert [b, c][1..] == [c];
    assert NonEmpty([c]) == [c];
  }

  lemma JoinThree(a: string, b: string, c: string)
    ensures Join([a, b, c], "/") == a + "/" + b + "/" + c
  {
    assert [a, b, c][1..] == [b, c];
    assert [b, c][1..] == [c];
    assert Join([b, c], "/") == b + "/" + c;
  }

  lemma StripSegment(s: string)
    requires Segment(s)
    ensures StripChar(s, '/') == s
  {
    assert s[0] in s;
    assert s[|s| - 1] in s;
  }

  lemma StripLeadingSlash(s: string)
    requires Segment(s)
    ensures StripChar("/" + s, '/') == s
  {
    assert ("/" + s)[1..] == s;
    StripSegment(s);
  }

  lemma NotEndsWithSlash(s: string)
    requires Segment(s)
    ensures !EndsWith(s, "/")
  {
    assert s[|s| - 1..][0] == s[|s| - 1];
    assert s[|s| - 1] in s;
  }
}
