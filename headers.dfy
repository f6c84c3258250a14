/** tornado.httputil.HTTPHeaders as the proxy handlers use it: a multi-dict
    whose names are kept in first-insertion order, each name with every value
    added under it. Every name is normalized (`_normalize_header`) before it is
    stored or looked up, so names that differ only in ASCII case are one
    header. `get` joins the values with ",", `get_all` yields every (name,
    value) pair name by name, `headers[n] = v` replaces all values of `n`,
    `add` appends one, `del` drops the name. */
module HttpHeaders {
  import opened Common

  datatype Field = Field(name: string, values: seq<string>)

  type Headers = seq<Field>

  // ---------------------------------------------------------------------
  // Header names

  /** `c.upper()` on ASCII letters; other characters are kept. */
  function UpperChar(c: char): char {
    if 'a' <= c <= 'z' then (c as int - 32) as char else c
  }

  /** `c.lower()` on ASCII letters; other characters are kept. */
  function LowerChar(c: char): char {
    if 'A' <= c <= 'Z' then (c as int + 32) as char else c
  }

  /** How the two case maps compose, and that neither touches `-`. */
  lemma CaseFacts(c: char)
    ensures UpperChar(UpperChar(c)) == UpperChar(c) && LowerChar(LowerChar(c)) == LowerChar(c)
    ensures LowerChar(UpperChar(c)) == LowerChar(c) && UpperChar(LowerChar(c)) == UpperChar(c)
    ensures (UpperChar(c) == '-') == (c == '-') && (LowerChar(c) == '-') == (c == '-')
  {
  }

  /** `w.capitalize()` on ASCII: the first character upper-cased, the rest
      lowered. */
  function Capitalize(w: string): (r: string)
    ensures |r| == |w|
    ensures |w| > 0 ==> r[0] == UpperChar(w[0])
    ensures forall i :: 0 < i < |w| ==> r[i] == LowerChar(w[i])
  {
    seq(|w|, i requires 0 <= i < |w| => if i == 0 then UpperChar(w[i]) else LowerChar(w[i]))
  }

  function CapitalizeAll(ws: seq<string>): (r: seq<string>)
    ensures |r| == |ws|
    ensures forall i :: 0 <= i < |ws| ==> r[i] == Capitalize(ws[i])
  {
    if |ws| == 0 then [] else [Capitalize(ws[0])] + CapitalizeAll(ws[1..])
  }

  /** `_normalize_header(n)`, character by character: upper case at the
      start of the name and after each `-`, lower case elsewhere. That this
      is `"-".join([w.capitalize() for w in n.split("-")])` is
      NormalizeHeaderWords. */
  function NormalizeHeader(n: string): (r: string)
    ensures |r| == |n|
  {
    seq(|n|, i requires 0 <= i < |n| => if i == 0 || n[i - 1] == '-' then UpperChar(n[i]) else LowerChar(n[i]))
  }

  /** Normalizing moves no `-`. */
  lemma NormalizeKeepsDashes(n: string)
    ensures forall i :: 0 <= i < |n| ==> (NormalizeHeader(n)[i] == '-' <==> n[i] == '-')
  {
    forall i | 0 <= i < |n| ensures (NormalizeHeader(n)[i] == '-' <==> n[i] == '-') {
      CaseFacts(n[i]);
    }
  }

  /** A word without `-` normalizes to its capitalization. */
  lemma NormalizeWord(w: string)
    requires '-' !in w
    ensures NormalizeHeader(w) == Capitalize(w)
  {
    var r, c := NormalizeHeader(w), Capitalize(w);
    forall i | 0 < i < |w| ensures r[i] == c[i] {
      assert w[i - 1] in w;
    }
  }

  /** Normalizing `a-b` for a word `a`: its capitalization, `-`, then `b`
      normalized. */
  lemma NormalizeConcat(a: string, b: string)
    requires '-' !in a
    ensures NormalizeHeader(a + "-" + b) == Capitalize(a) + "-" + NormalizeHeader(b)
  {
    var l, r := NormalizeHeader(a + "-" + b), Capitalize(a) + "-" + NormalizeHeader(b);
    forall i | 0 <= i < |l| ensures l[i] == r[i] {
      NormalizeConcatAt(a, b, i);
    }
  }

  lemma NormalizeConcatAt(a: string, b: string, i: nat)
    requires '-' !in a && i < |a| + 1 + |b|
    ensures NormalizeHeader(a + "-" + b)[i] == (Capitalize(a) + "-" + NormalizeHeader(b))[i]
  {
    var n := a + "-" + b;
    if i < |a| {
      assert n[i] == a[i];
      if 0 < i {
        assert n[i - 1] == a[i - 1] && a[i - 1] in a;
      }
    } else if i > |a| {
      var j := i - |a| - 1;
      assert n[i] == b[j];
      if j > 0 {
        assert n[i - 1] == b[j - 1];
      }
    }
  }

  /** The character-wise spelling is tornado's
      `"-".join([w.capitalize() for w in name.split("-")])`. */
  lemma {:induction false} NormalizeHeaderWords(n: string)
    ensures NormalizeHeader(n) == Join(CapitalizeAll(Split(n, '-')), "-")
    decreases |n|
  {
    if '-' !in n {
      SplitNoSep(n, '-');
      NormalizeWord(n);
      assert CapitalizeAll([n]) == [Capitalize(n)];
    } else {
      var a := Before(n, '-');
      assert |a| < |n|;
      var b := n[|a| + 1..];
      assert n == a + "-" + b;
      SplitConcatSep(a, b, '-');
      NormalizeHeaderWords(b);
      NormalizeConcat(a, b);
      var rest := CapitalizeAll(Split(b, '-'));
      var all := [a] + Split(b, '-');
      assert CapitalizeAll(all) == [Capitalize(a)] + rest by {
        assert all[0] == a && all[1..] == Split(b, '-');
      }
      assert ([Capitalize(a)] + rest)[1..] == rest;
    }
  }

  /** A mixed-case name after its first word is lowered: this is how
      tornado spells the header jupyter-server-proxy sets. */
  lemma NormalizeHeaderExample()
    ensures NormalizeHeader("X-ProxyContextPath") == "X-Proxycontextpath"
  {
    ExampleStart();
    ExampleMiddle();
    ExampleEnd();
    ExampleSpelling(NormalizeHeader("X-ProxyContextPath"));
  }

  /** A string of 18 characters is determined by them. */
  lemma ExampleSpelling(r: string)
    requires |r| == 18
    requires r[0] == 'X' && r[1] == '-' && r[2] == 'P' && r[3] == 'r' && r[4] == 'o' && r[5] == 'x'
    requires r[6] == 'y' && r[7] == 'c' && r[8] == 'o' && r[9] == 'n' && r[10] == 't' && r[11] == 'e'
    requires r[12] == 'x' && r[13] == 't' && r[14] == 'p' && r[15] == 'a' && r[16] == 't' && r[17] == 'h'
    ensures r == "X-Proxycontextpath"
  {
  }

  lemma ExampleStart()
    ensures var r := NormalizeHeader("X-ProxyContextPath");
      r[0] == 'X' && r[1] == '-' && r[2] == 'P' && r[3] == 'r' && r[4] == 'o' && r[5] == 'x'
  {
  }

  lemma ExampleMiddle()
    ensures var r := NormalizeHeader("X-ProxyContextPath");
      r[6] == 'y' && r[7] == 'c' && r[8] == 'o' && r[9] == 'n' && r[10] == 't' && r[11] == 'e'
  {
  }

  lemma ExampleEnd()
    ensures var r := NormalizeHeader("X-ProxyContextPath");
      r[12] == 'x' && r[13] == 't' && r[14] == 'p' && r[15] == 'a' && r[16] == 't' && r[17] == 'h'
  {
  }

  /** Normalizing twice is normalizing once. */
  lemma NormalizeHeaderIdempotent(n: string)
    ensures NormalizeHeader(NormalizeHeader(n)) == NormalizeHeader(n)
  {
    var r := NormalizeHeader(n);
    var rr := NormalizeHeader(r);
    forall i | 0 <= i < |n| ensures rr[i] == r[i] {
      CaseFacts(n[i]);
    }
  }

  /** Two names are one header iff they agree up to ASCII case. */
  lemma NormalizeHeaderSame(a: string, b: string)
    ensures NormalizeHeader(a) == NormalizeHeader(b) <==> LowerAscii(a) == LowerAscii(b)
  {
    var na, nb := NormalizeHeader(a), NormalizeHeader(b);
    var la, lb := LowerAscii(a), LowerAscii(b);
    if na == nb {
      forall i | 0 <= i < |a| ensures la[i] == lb[i] {
        CaseFacts(a[i]);
        CaseFacts(b[i]);
        assert LowerChar(na[i]) == LowerChar(nb[i]);
      }
    }
    if la == lb {
      forall i | 0 <= i < |a| ensures na[i] == nb[i] {
        CaseFacts(a[i]);
        CaseFacts(b[i]);
        assert LowerChar(a[i]) == la[i] == lb[i] == LowerChar(b[i]);
        if 0 < i {
          CaseFacts(a[i - 1]);
          CaseFacts(b[i - 1]);
          assert LowerChar(a[i - 1]) == la[i - 1] == lb[i - 1] == LowerChar(b[i - 1]);
        }
      }
    }
  }

  // ---------------------------------------------------------------------
  // The multi-dict

  /** What tornado maintains: each name normalized and once, never with zero
      values. */
  predicate WellFormed(h: Headers) {
    && (forall i, j :: 0 <= i < j < |h| ==> h[i].name != h[j].name)
    && (forall i :: 0 <= i < |h| ==> |h[i].values| > 0)
    && (forall i :: 0 <= i < |h| ==> NormalizeHeader(h[i].name) == h[i].name)
  }

  /** `n in headers` */
  predicate Has(h: Headers, n: string) {
    |h| > 0 && (h[0].name == NormalizeHeader(n) || Has(h[1..], n))
  }

  /** `headers.get(n)`: the values of `n` joined by ",". */
  function Get(h: Headers, n: string): (r: Option<string>)
    ensures r.Some? <==> Has(h, n)
  {
    if |h| == 0 then None
    else if h[0].name == NormalizeHeader(n) then Some(Join(h[0].values, ","))
    else Get(h[1..], n)
  }

  /** `del headers[n]` */
  function Delete(h: Headers, n: string): (r: Headers)
    ensures forall f :: f in r <==> f in h && f.name != NormalizeHeader(n)
    ensures |r| <= |h|
  {
    if |h| == 0 then []
    else if h[0].name == NormalizeHeader(n) then Delete(h[1..], n)
    else [h[0]] + Delete(h[1..], n)
  }

  /** `headers[n] = v` */
  function Set(h: Headers, n: string, v: string): Headers {
    if |h| == 0 then [Field(NormalizeHeader(n), [v])]
    else if h[0].name == NormalizeHeader(n) then [Field(NormalizeHeader(n), [v])] + h[1..]
    else [h[0]] + Set(h[1..], n, v)
  }

  /** `headers.add(n, v)` */
  function Add(h: Headers, n: string, v: string): Headers {
    if |h| == 0 then [Field(NormalizeHeader(n), [v])]
    else if h[0].name == NormalizeHeader(n) then [Field(h[0].name, h[0].values + [v])] + h[1..]
    else [h[0]] + Add(h[1..], n, v)
  }

  /** The (name, value) pairs of one field. */
  function Pairs(f: Field): (r: seq<(string, string)>)
    ensures |r| == |f.values|
    ensures forall i :: 0 <= i < |r| ==> r[i] == (f.name, f.values[i])
  {
    seq(|f.values|, i requires 0 <= i < |f.values| => (f.name, f.values[i]))
  }

  /** `headers.get_all()` */
  function GetAll(h: Headers): seq<(string, string)> {
    if |h| == 0 then [] else GetAll(h[..|h| - 1]) + Pairs(h[|h| - 1])
  }

  /** `add` applied to each pair in turn. */
  function AddAll(h: Headers, ps: seq<(string, string)>): Headers
    decreases |ps|
  {
    if |ps| == 0 then h else AddAll(Add(h, ps[0].0, ps[0].1), ps[1..])
  }

  /** The pairs whose name is not in `drop`, in order. */
  function FilterPairs(ps: seq<(string, string)>, drop: set<string>): (r: seq<(string, string)>)
    ensures forall p :: p in r <==> p in ps && p.0 !in drop
  {
    if |ps| == 0 then []
    else (if ps[0].0 in drop then [] else [ps[0]]) + FilterPairs(ps[1..], drop)
  }

  /** The fields whose name is not in `drop`, in order. */
  function FilterFields(h: Headers, drop: set<string>): (r: Headers)
    ensures forall f :: f in r <==> f in h && f.name !in drop
  {
    if |h| == 0 then []
    else FilterFields(h[..|h| - 1], drop) + (if h[|h| - 1].name in drop then [] else [h[|h| - 1]])
  }

  // ---------------------------------------------------------------------
  // Lemmas

  /** Every operation sees a name only through its normalized spelling. */
  lemma {:induction false} SameHeader(h: Headers, m: string, n: string, v: string)
    requires NormalizeHeader(m) == NormalizeHeader(n)
    ensures Has(h, m) == Has(h, n) && Get(h, m) == Get(h, n)
    ensures Delete(h, m) == Delete(h, n) && Set(h, m, v) == Set(h, n, v) && Add(h, m, v) == Add(h, n, v)
  {
    if |h| > 0 {
      SameHeader(h[1..], m, n, v);
    }
  }

  /** A name and its normalized spelling are the same header. */
  lemma SameAsNormalized(h: Headers, n: string, v: string)
    ensures Has(h, n) == Has(h, NormalizeHeader(n)) && Get(h, n) == Get(h, NormalizeHeader(n))
    ensures Delete(h, n) == Delete(h, NormalizeHeader(n)) && Set(h, n, v) == Set(h, NormalizeHeader(n), v)
  {
    NormalizeHeaderIdempotent(n);
    SameHeader(h, n, NormalizeHeader(n), v);
  }

  lemma DeleteWellFormed(h: Headers, n: string)
    requires WellFormed(h)
    ensures WellFormed(Delete(h, n)) && !Has(Delete(h, n), n)
    ensures forall m :: NormalizeHeader(m) != NormalizeHeader(n) ==> Get(Delete(h, n), m) == Get(h, m)
  {
    DeleteKeepsWellFormed(h, n);
    DeleteRemoves(h, n);
    forall m | NormalizeHeader(m) != NormalizeHeader(n)
      ensures Get(Delete(h, n), m) == Get(h, m)
    {
      DeleteGetOther(h, n, m);
    }
  }

  /** Deleting keeps each remaining name once, with its values. */
  lemma {:induction false} DeleteKeepsWellFormed(h: Headers, n: string)
    requires WellFormed(h)
    ensures WellFormed(Delete(h, n))
  {
    if |h| > 0 {
      var t := h[1..];
      TailWellFormed(h);
      DeleteKeepsWellFormed(t, n);
      if h[0].name != NormalizeHeader(n) {
        assert Delete(h, n) == [h[0]] + Delete(t, n);
        DeleteAvoids(t, n, h[0].name);
        ConsWellFormed(h[0], Delete(t, n));
      }
    }
  }

  /** The fields after the first of well-formed headers are well formed. */
  lemma TailWellFormed(h: Headers)
    requires WellFormed(h) && |h| > 0
    ensures WellFormed(h[1..])
    ensures forall j :: 0 <= j < |h| - 1 ==> h[1..][j].name != h[0].name
  {
    var t := h[1..];
    forall i, j | 0 <= i < j < |t|
      ensures t[i].name != t[j].name
    {
      assert t[i] == h[i + 1] && t[j] == h[j + 1];
    }
    forall j | 0 <= j < |t|
      ensures t[j].name != h[0].name
    {
      assert t[j] == h[j + 1];
    }
  }

  /** A field in front of well-formed headers without its name. */
  lemma ConsWellFormed(f: Field, t: Headers)
    requires WellFormed(t) && |f.values| > 0 && NormalizeHeader(f.name) == f.name
    requires forall j :: 0 <= j < |t| ==> t[j].name != f.name
    ensures WellFormed([f] + t)
  {
    var r := [f] + t;
    forall i, j | 0 <= i < j < |r|
      ensures r[i].name != r[j].name
    {
      assert r[j] == t[j - 1];
      if i > 0 {
        assert r[i] == t[i - 1];
      }
    }
    assert r[0] == f;
    forall i | 0 < i < |r|
      ensures |r[i].values| > 0 && NormalizeHeader(r[i].name) == r[i].name
    {
      assert r[i] == t[i - 1];
    }
  }

  /** A name absent from the headers stays absent after deleting another. */
  lemma DeleteAvoids(t: Headers, n: string, x: string)
    requires forall j :: 0 <= j < |t| ==> t[j].name != x
    ensures forall j :: 0 <= j < |Delete(t, n)| ==> Delete(t, n)[j].name != x
  {
    var r := Delete(t, n);
    forall j | 0 <= j < |r|
      ensures r[j].name != x
    {
      assert r[j] in r;
      var k :| 0 <= k < |t| && t[k] == r[j];
    }
  }

  /** After `del headers[n]` the header is gone, in every spelling. */
  lemma DeleteRemoves(h: Headers, n: string)
    ensures forall m :: NormalizeHeader(m) == NormalizeHeader(n) ==> !Has(Delete(h, n), m)
  {
    DeleteRemovesName(h, n);
    forall m | NormalizeHeader(m) == NormalizeHeader(n)
      ensures !Has(Delete(h, n), m)
    {
      SameHeader(Delete(h, n), m, n, "");
    }
  }

  lemma {:induction false} DeleteRemovesName(h: Headers, n: string)
    ensures !Has(Delete(h, n), n)
  {
    if |h| > 0 {
      DeleteRemovesName(h[1..], n);
      if h[0].name != NormalizeHeader(n) {
        assert Delete(h, n)[1..] == Delete(h[1..], n);
      }
    }
  }

  /** `del headers[n]` leaves the value of every other header alone. */
  lemma {:induction false} DeleteGetOther(h: Headers, n: string, m: string)
    requires NormalizeHeader(m) != NormalizeHeader(n)
    ensures Get(Delete(h, n), m) == Get(h, m)
  {
    if |h| > 0 {
      DeleteGetOther(h[1..], n, m);
      if h[0].name != NormalizeHeader(n) {
        var r := Delete(h, n);
        assert r[0] == h[0] && r[1..] == Delete(h[1..], n);
      }
    }
  }

  /** `headers[n] = v` makes `v` the only value of `n`, under every
      spelling of `n`. */
  lemma SetGetSame(h: Headers, n: string, v: string, m: string)
    requires NormalizeHeader(m) == NormalizeHeader(n)
    ensures Get(Set(h, n, v), m) == Some(v)
  {
    SetGetName(h, n, v);
    SameHeader(Set(h, n, v), m, n, v);
  }

  lemma {:induction false} SetGetName(h: Headers, n: string, v: string)
    ensures Get(Set(h, n, v), n) == Some(v)
  {
    if |h| > 0 && h[0].name != NormalizeHeader(n) {
      SetGetName(h[1..], n, v);
    } else {
      assert Join([v], ",") == v;
    }
  }

  /** `headers[n] = v` leaves every other header's value alone. */
  lemma {:induction false} SetGetOther(h: Headers, n: string, v: string, m: string)
    requires NormalizeHeader(m) != NormalizeHeader(n)
    ensures Get(Set(h, n, v), m) == Get(h, m)
  {
    if |h| > 0 && h[0].name != NormalizeHeader(n) {
      SetGetOther(h[1..], n, v, m);
    }
  }

  /** `n in headers` iff some field carries the normalized name. */
  lemma {:induction false} HasIndex(h: Headers, n: string)
    ensures Has(h, n) <==> exists i :: 0 <= i < |h| && h[i].name == NormalizeHeader(n)
  {
    if |h| > 0 {
      var k, t := NormalizeHeader(n), h[1..];
      assert Has(h, n) == (h[0].name == k || Has(t, n));
      HasIndex(t, n);
      if Has(t, n) {
        var i :| 0 <= i < |t| && t[i].name == k;
        assert h[i + 1].name == k;
      }
      forall i | 0 < i < |h| && h[i].name == k ensures Has(t, n) {
        assert t[i - 1].name == k;
      }
    }
  }

  /** `headers[n] = v` on well-formed headers: the field of that header,
      whatever the spelling of `n`, is replaced where it stands by one under
      the normalized name, or that field is appended when there was none. */
  lemma {:induction false} SetShape(h: Headers, n: string, v: string)
    requires WellFormed(h)
    ensures |Set(h, n, v)| == if Has(h, n) then |h| else |h| + 1
    ensures forall i :: 0 <= i < |h| ==>
      Set(h, n, v)[i] == if h[i].name == NormalizeHeader(n) then Field(NormalizeHeader(n), [v]) else h[i]
    ensures !Has(h, n) ==> Set(h, n, v)[|h|] == Field(NormalizeHeader(n), [v])
  {
    var k := NormalizeHeader(n);
    if |h| > 0 {
      var r := Set(h, n, v);
      if h[0].name == k {
        assert forall i :: 0 < i < |h| ==> h[i].name != k;
      } else {
        assert WellFormed(h[1..]);
        SetShape(h[1..], n, v);
        assert r[1..] == Set(h[1..], n, v);
        forall i | 0 < i < |h| ensures r[i] == if h[i].name == k then Field(k, [v]) else h[i] {
          assert r[i] == r[1..][i - 1];
          assert h[i] == h[1..][i - 1];
        }
      }
    }
  }

  /** `headers[n] = v` keeps the headers well formed. */
  lemma SetWellFormed(h: Headers, n: string, v: string)
    requires WellFormed(h)
    ensures WellFormed(Set(h, n, v))
  {
    SetShape(h, n, v);
    HasIndex(h, n);
    NormalizeHeaderIdempotent(n);
    var r := Set(h, n, v);
    assert forall i :: 0 <= i < |h| ==> r[i].name == h[i].name;
  }

  /** `headers.add(n, v)`: the names stay where they are, no field loses a
      value, and a new header is appended under its normalized name. */
  lemma {:induction false} AddShape(h: Headers, n: string, v: string)
    ensures |Add(h, n, v)| == if Has(h, n) then |h| else |h| + 1
    ensures forall i :: 0 <= i < |h| ==>
      Add(h, n, v)[i].name == h[i].name && |Add(h, n, v)[i].values| >= |h[i].values|
    ensures !Has(h, n) ==> Add(h, n, v)[|h|] == Field(NormalizeHeader(n), [v])
  {
    if |h| > 0 && h[0].name != NormalizeHeader(n) {
      var r := Add(h, n, v);
      AddShape(h[1..], n, v);
      assert r[1..] == Add(h[1..], n, v);
      forall i | 0 < i < |h|
        ensures r[i].name == h[i].name && |r[i].values| >= |h[i].values|
      {
        assert r[i] == r[1..][i - 1];
        assert h[i] == h[1..][i - 1];
      }
    }
  }

  /** `headers.add(n, v)` keeps the headers well formed. */
  lemma AddWellFormed(h: Headers, n: string, v: string)
    requires WellFormed(h)
    ensures WellFormed(Add(h, n, v))
  {
    AddShape(h, n, v);
    HasIndex(h, n);
    NormalizeHeaderIdempotent(n);
  }

  /** Headers built by `add` alone, as tornado builds parsed headers, are
      well formed. */
  lemma {:induction false} AddAllWellFormed(h: Headers, ps: seq<(string, string)>)
    requires WellFormed(h)
    ensures WellFormed(AddAll(h, ps))
    decreases |ps|
  {
    if |ps| > 0 {
      AddWellFormed(h, ps[0].0, ps[0].1);
      AddAllWellFormed(Add(h, ps[0].0, ps[0].1), ps[1..]);
    }
  }

  /** Fields filtered by a set of names carry no header whose normalized
      name is in the set, in any spelling. */
  lemma FilterFieldsDrops(h: Headers, drop: set<string>, m: string)
    requires NormalizeHeader(m) in drop
    ensures !Has(FilterFields(h, drop), m)
  {
    var k := FilterFields(h, drop);
    HasIndex(k, m);
    forall i | 0 <= i < |k| ensures k[i].name != NormalizeHeader(m) {
      assert k[i] in k;
    }
  }

  lemma {:induction false} AddAllConcat(h: Headers, a: seq<(string, string)>, b: seq<(string, string)>)
    ensures AddAll(h, a + b) == AddAll(AddAll(h, a), b)
    decreases |a|
  {
    if |a| > 0 {
      assert (a + b)[0] == a[0];
      assert (a + b)[1..] == a[1..] + b;
      AddAllConcat(Add(h, a[0].0, a[0].1), a[1..], b);
    } else {
      assert a + b == b;
    }
  }

  lemma {:induction false} FilterPairsConcat(a: seq<(string, string)>, b: seq<(string, string)>, drop: set<string>)
    ensures FilterPairs(a + b, drop) == FilterPairs(a, drop) + FilterPairs(b, drop)
  {
    if |a| == 0 {
      assert a + b == b;
    } else {
      assert (a + b)[0] == a[0];
      assert (a + b)[1..] == a[1..] + b;
      FilterPairsConcat(a[1..], b, drop);
    }
  }

  /** One step of re-adding filtered pairs. */
  lemma AddFilteredStep(ps: seq<(string, string)>, i: nat, drop: set<string>)
    requires i < |ps|
    ensures AddAll([], FilterPairs(ps[..i + 1], drop)) ==
      if ps[i].0 in drop then AddAll([], FilterPairs(ps[..i], drop))
      else Add(AddAll([], FilterPairs(ps[..i], drop)), ps[i].0, ps[i].1)
  {
    assert ps[..i + 1] == ps[..i] + [ps[i]];
    FilterPairsConcat(ps[..i], [ps[i]], drop);
    var before := FilterPairs(ps[..i], drop);
    if ps[i].0 in drop {
      assert FilterPairs([ps[i]], drop) == [];
      assert before + [] == before;
    } else {
      assert FilterPairs([ps[i]], drop) == [ps[i]];
      AddAllConcat([], before, [ps[i]]);
    }
  }

  /** Adding under a name that only the last field carries extends that field. */
  lemma {:induction false} AddToLast(h: Headers, n: string, pre: seq<string>, v: string)
    requires NormalizeHeader(n) == n && !Has(h, n)
    ensures Add(h + [Field(n, pre)], n, v) == h + [Field(n, pre + [v])]
  {
    if |h| > 0 {
      var x := h + [Field(n, pre)];
      assert x[0] == h[0] && x[1..] == h[1..] + [Field(n, pre)];
      AddToLast(h[1..], n, pre, v);
      assert Add(x, n, v) == [h[0]] + Add(x[1..], n, v);
      assert [h[0]] + (h[1..] + [Field(n, pre + [v])]) == h + [Field(n, pre + [v])];
    }
  }

  lemma {:induction false} AddNew(h: Headers, n: string, v: string)
    requires NormalizeHeader(n) == n && !Has(h, n)
    ensures Add(h, n, v) == h + [Field(n, [v])]
  {
    if |h| > 0 {
      AddNew(h[1..], n, v);
      assert [h[0]] + (h[1..] + [Field(n, [v])]) == h + [Field(n, [v])];
    }
  }

  /** Adding the remaining values of the last field one by one. */
  lemma {:induction false} AddRest(h: Headers, n: string, pre: seq<string>, rest: seq<string>)
    requires NormalizeHeader(n) == n && !Has(h, n)
    ensures AddAll(h + [Field(n, pre)], Pairs(Field(n, rest))) == h + [Field(n, pre + rest)]
    decreases |rest|
  {
    if |rest| == 0 {
      assert pre + rest == pre;
    } else {
      var ps := Pairs(Field(n, rest));
      assert ps[1..] == Pairs(Field(n, rest[1..]));
      AddToLast(h, n, pre, rest[0]);
      AddRest(h, n, pre + [rest[0]], rest[1..]);
      assert pre + [rest[0]] + rest[1..] == pre + rest;
    }
  }

  /** Adding all values of a field with a new name appends that field. */
  lemma AddField(h: Headers, f: Field)
    requires NormalizeHeader(f.name) == f.name && !Has(h, f.name) && |f.values| > 0
    ensures AddAll(h, Pairs(f)) == h + [f]
  {
    var ps := Pairs(f);
    assert ps[1..] == Pairs(Field(f.name, f.values[1..]));
    AddNew(h, f.name, f.values[0]);
    AddRest(h, f.name, [f.values[0]], f.values[1..]);
    assert [f.values[0]] + f.values[1..] == f.values;
  }

  lemma FilterPairsOfField(f: Field, drop: set<string>)
    ensures FilterPairs(Pairs(f), drop) == if f.name in drop then [] else Pairs(f)
    decreases |f.values|
  {
    var ps := Pairs(f);
    if |ps| > 0 {
      assert ps[1..] == Pairs(Field(f.name, f.values[1..]));
      FilterPairsOfField(Field(f.name, f.values[1..]), drop);
    }
  }

  /** Filtering cannot bring in a name the fields did not carry. */
  lemma FilterFieldsNames(h: Headers, drop: set<string>, n: string)
    requires NormalizeHeader(n) == n
    requires forall i :: 0 <= i < |h| ==> h[i].name != n
    ensures !Has(FilterFields(h, drop), n)
  {
    var k := FilterFields(h, drop);
    HasIndex(k, n);
    forall i | 0 <= i < |k| ensures k[i].name != n {
      assert k[i] in h;
    }
  }

  lemma WellFormedInit(g: Headers)
    requires WellFormed(g) && |g| > 0
    ensures WellFormed(g[..|g| - 1])
    ensures forall i :: 0 <= i < |g| - 1 ==> g[i].name != g[|g| - 1].name
  {
  }

  /** Re-adding the surviving `get_all` pairs of well-formed headers into an
      empty HTTPHeaders rebuilds exactly the surviving fields. */
  lemma {:induction false} RebuildFiltered(g: Headers, drop: set<string>)
    requires WellFormed(g)
    ensures AddAll([], FilterPairs(GetAll(g), drop)) == FilterFields(g, drop)
  {
    if |g| > 0 {
      var init, last := g[..|g| - 1], g[|g| - 1];
      WellFormedInit(g);
      RebuildFiltered(init, drop);
      RebuildStep(init, last, drop);
    }
  }

  lemma RebuildStep(init: Headers, last: Field, drop: set<string>)
    requires AddAll([], FilterPairs(GetAll(init), drop)) == FilterFields(init, drop)
    requires forall i :: 0 <= i < |init| ==> init[i].name != last.name
    requires |last.values| > 0 && NormalizeHeader(last.name) == last.name
    ensures AddAll([], FilterPairs(GetAll(init + [last]), drop)) == FilterFields(init + [last], drop)
  {
    var g := init + [last];
    assert g[..|g| - 1] == init && g[|g| - 1] == last;
    var kept := FilterFields(init, drop);
    var before := FilterPairs(GetAll(init), drop);
    var tail := FilterPairs(Pairs(last), drop);
    assert GetAll(g) == GetAll(init) + Pairs(last);
    FilterPairsConcat(GetAll(init), Pairs(last), drop);
    AddAllConcat([], before, tail);
    FilterPairsOfField(last, drop);
    if last.name !in drop {
      FilterFieldsNames(init, drop, last.name);
      AddField(kept, last);
      assert FilterFields(g, drop) == kept + [last];
    } else {
      assert tail == [];
      assert FilterFields(g, drop) == kept + [];
      assert kept + [] == kept;
    }
  }

  /** `get_all` of the surviving fields is the surviving pairs. */
  lemma {:induction false} GetAllFiltered(g: Headers, drop: set<string>)
    ensures GetAll(FilterFields(g, drop)) == FilterPairs(GetAll(g), drop)
  {
    if |g| > 0 {
      var init, last := g[..|g| - 1], g[|g| - 1];
      GetAllFiltered(init, drop);
      FilterPairsConcat(GetAll(init), Pairs(last), drop);
      FilterPairsOfField(last, drop);
      var kept := FilterFields(init, drop);
      assert GetAll(g) == GetAll(init) + Pairs(last);
      if last.name !in drop {
        var k := kept + [last];
        assert FilterFields(g, drop) == k;
        assert k[..|k| - 1] == kept && k[|k| - 1] == last;
        assert GetAll(k) == GetAll(kept) + Pairs(last);
      } else {
        assert FilterFields(g, drop) == kept + [];
        assert kept + [] == kept;
        assert FilterPairs(GetAll(init), drop) + [] == FilterPairs(GetAll(init), drop);
      }
    }
  }
}
