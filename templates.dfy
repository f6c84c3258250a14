/** Configuration templates and `_render_template`, which both
    `nbserverproxy/config.py` and `jupyter_server_proxy/native_proxy.py`
    define: strings are formatted, lists rendered element by element and
    dicts rendered key by key and value by value. `str.format` is given as
    an abstract substitution `fmt` (the format arguments are fixed inside
    it); it may raise. */
module Templates {
  import opened Common
  import opened Dicts

  /** A dict key of a configuration value: a string or another hashable
      object (a number, None, a tuple). */
  datatype Key = KStr(s: string) | KOther(tag: string)

  /** A configuration value: a string, a list, a dict (its items in
      insertion order) or a value of any other type. */
  datatype Template =
    | TStr(s: string)
    | TList(items: seq<Template>)
    | TDict(entries: seq<(Key, Template)>)
    | TOther(tag: string)

  /** A rendered dict key: a formatted string, or None. */
  datatype RKey = RKStr(s: string) | RKNone

  /** A rendered value. */
  datatype Rendered =
    | RStr(s: string)
    | RList(items: seq<Rendered>)
    | RDict(entries: seq<(RKey, Rendered)>)
    | RNone

  /** What `_render_template` does with a value that is not a str, list or
      dict: fall through and return None, or raise ValueError. */
  datatype Fallback = ReturnNone | RaiseValueError

  // ---------------------------------------------------------------------
  // rendering

  /** A dict key rendered. */
  function RenderKey(k: Key, fmt: string -> Result<string>, other: Fallback): (r: Result<RKey>)
    ensures k.KStr? ==> (r.Ok? <==> fmt(k.s).Ok?)
    ensures k.KStr? && r.Ok? ==> r.value == RKStr(fmt(k.s).value)
    ensures k.KOther? ==> r == (if other == ReturnNone then Ok(RKNone) else Err(ValueError))
  {
    match k
    case KStr(s) => (var f := fmt(s); if f.Ok? then Ok(RKStr(f.value)) else Err(f.error))
    case KOther(_) => if other == ReturnNone then Ok(RKNone) else Err(ValueError)
  }

  /** `_render_template(value)`. */
  function Render(t: Template, fmt: string -> Result<string>, other: Fallback): (r: Result<Rendered>)
    decreases t, 1
  {
    match t
    case TStr(s) => (var f := fmt(s); if f.Ok? then Ok(RStr(f.value)) else Err(f.error))
    case TOther(_) => if other == ReturnNone then Ok(RNone) else Err(ValueError)
    case TList(items) =>
      var rs := RenderItems(t, |items|, fmt, other);
      if rs.Ok? then Ok(RList(rs.value)) else Err(rs.error)
    case TDict(entries) =>
      var ps := RenderPairs(t, |entries|, fmt, other);
      if ps.Ok? then Ok(RDict(FromPairs(ps.value))) else Err(ps.error)
  }

  /** The first `n` list elements rendered in order; the first failure is
      the error. */
  function RenderItems(t: Template, n: nat, fmt: string -> Result<string>, other: Fallback)
    : (r: Result<seq<Rendered>>)
    requires t.TList? && n <= |t.items|
    ensures r.Ok? <==> forall i :: 0 <= i < n ==> Render(t.items[i], fmt, other).Ok?
    ensures r.Ok? ==>
      |r.value| == n && forall i :: 0 <= i < n ==> Render(t.items[i], fmt, other) == Ok(r.value[i])
    ensures r.Err? ==>
      exists i :: 0 <= i < n && Render(t.items[i], fmt, other) == Err(r.error)
        && forall j :: 0 <= j < i ==> Render(t.items[j], fmt, other).Ok?
    decreases t, 0, n
  {
    if n == 0 then Ok([])
    else
      var pre := RenderItems(t, n - 1, fmt, other);
      if pre.Err? then Err(pre.error)
      else
        var x := Render(t.items[n - 1], fmt, other);
        if x.Err? then Err(x.error) else Ok(pre.value + [x.value])
  }

  /** The first `n` dict items rendered in order, the key of each before its
      value; the first failure is the error. */
  function RenderPairs(t: Template, n: nat, fmt: string -> Result<string>, other: Fallback)
    : (r: Result<seq<(RKey, Rendered)>>)
    requires t.TDict? && n <= |t.entries|
    ensures r.Ok? <==> forall i :: 0 <= i < n ==>
      RenderKey(t.entries[i].0, fmt, other).Ok? && Render(t.entries[i].1, fmt, other).Ok?
    ensures r.Ok? ==>
      |r.value| == n
      && forall i :: 0 <= i < n ==>
           Ok(r.value[i].0) == RenderKey(t.entries[i].0, fmt, other)
           && Ok(r.value[i].1) == Render(t.entries[i].1, fmt, other)
    decreases t, 0, n
  {
    if n == 0 then Ok([])
    else
      var pre := RenderPairs(t, n - 1, fmt, other);
      if pre.Err? then Err(pre.error)
      else
        var e := t.entries[n - 1];
        var k := RenderKey(e.0, fmt, other);
        if k.Err? then Err(k.error)
        else
          var v := Render(e.1, fmt, other);
          if v.Err? then Err(v.error) else Ok(pre.value + [(k.value, v.value)])
  }

  // ---------------------------------------------------------------------
  // properties

  /** A string is formatted; another type falls back. */
  lemma RenderScalars(s: string, tag: string, fmt: string -> Result<string>, other: Fallback)
    ensures Render(TStr(s), fmt, other).Ok? <==> fmt(s).Ok?
    ensures fmt(s).Ok? ==> Render(TStr(s), fmt, other) == Ok(RStr(fmt(s).value))
    ensures fmt(s).Err? ==> Render(TStr(s), fmt, other) == Err(fmt(s).error)
    ensures Render(TOther(tag), fmt, other)
      == (if other == ReturnNone then Ok(RNone) else Err(ValueError))
  {
  }

  /** A list renders to a list of the same length whose i-th element is the
      i-th element rendered; it fails iff an element does, with the first
      failing element's error. */
  lemma RenderList(items: seq<Template>, fmt: string -> Result<string>, other: Fallback)
    ensures var r := Render(TList(items), fmt, other);
      (r.Ok? <==> forall i :: 0 <= i < |items| ==> Render(items[i], fmt, other).Ok?)
      && (r.Ok? ==>
            r.value.RList? && |r.value.items| == |items|
            && forall i :: 0 <= i < |items| ==> Render(items[i], fmt, other) == Ok(r.value.items[i]))
      && (r.Err? ==>
            exists i :: 0 <= i < |items| && Render(items[i], fmt, other) == Err(r.error)
              && forall j :: 0 <= j < i ==> Render(items[j], fmt, other).Ok?)
  {
    var t := TList(items);
    var rs := RenderItems(t, |items|, fmt, other);
    assert t.items == items;
  }

  /** A dict renders to a dict whose keys are exactly the rendered keys and
      whose every item is the rendered item that came last under its key. */
  lemma RenderDict(entries: seq<(Key, Template)>, fmt: string -> Result<string>, other: Fallback)
    requires Render(TDict(entries), fmt, other).Ok?
    ensures var r := Render(TDict(entries), fmt, other).value;
      r.RDict? && DistinctKeys(r.entries)
      && (forall i :: 0 <= i < |entries| ==>
            RenderKey(entries[i].0, fmt, other).Ok?
            && HasKey(r.entries, RenderKey(entries[i].0, fmt, other).value))
      && (forall k :: HasKey(r.entries, k) ==>
            exists i :: 0 <= i < |entries| && RenderKey(entries[i].0, fmt, other) == Ok(k))
  {
    var t := TDict(entries);
    var ps := RenderPairs(t, |entries|, fmt, other);
    assert t.entries == entries;
    var d := FromPairs(ps.value);
    forall i | 0 <= i < |entries|
      ensures HasKey(d, RenderKey(entries[i].0, fmt, other).value)
    {
      assert ps.value[i].0 == RenderKey(entries[i].0, fmt, other).value;
      assert HasKey(ps.value, ps.value[i].0);
      FromPairsKeys(ps.value, ps.value[i].0);
    }
    forall k | HasKey(d, k)
      ensures exists i :: 0 <= i < |entries| && RenderKey(entries[i].0, fmt, other) == Ok(k)
    {
      FromPairsKeys(ps.value, k);
      var i :| 0 <= i < |ps.value| && ps.value[i].0 == k;
      assert RenderKey(entries[i].0, fmt, other) == Ok(k);
    }
  }

  /** Under a key that several items render to, the rendered dict holds the
      value of the last of them. */
  lemma RenderDictLastWins(entries: seq<(Key, Template)>, fmt: string -> Result<string>,
                           other: Fallback, j: nat)
    requires Render(TDict(entries), fmt, other).Ok?
    requires j < |Render(TDict(entries), fmt, other).value.entries|
    ensures var item := Render(TDict(entries), fmt, other).value.entries[j];
      exists i :: 0 <= i < |entries|
        && RenderKey(entries[i].0, fmt, other) == Ok(item.0)
        && Render(entries[i].1, fmt, other) == Ok(item.1)
        && forall i' :: i < i' < |entries| ==> RenderKey(entries[i'].0, fmt, other) != Ok(item.0)
  {
    var t := TDict(entries);
    var ps := RenderPairs(t, |entries|, fmt, other);
    assert t.entries == entries;
    var item := FromPairs(ps.value)[j];
    FromPairsLastWins(ps.value, j);
    var i :| 0 <= i < |ps.value| && ps.value[i] == item
      && NoLaterKey(ps.value, i, item.0);
    assert RenderKey(entries[i].0, fmt, other) == Ok(item.0);
    forall i' | i < i' < |entries|
      ensures RenderKey(entries[i'].0, fmt, other) != Ok(item.0)
    {
      assert ps.value[i'].0 != item.0;
    }
  }

  /** When the rendered keys are pairwise distinct, the rendered dict keeps
      the size and order of the original, item by item. */
  lemma RenderDictDistinct(entries: seq<(Key, Template)>, fmt: string -> Result<string>, other: Fallback)
    requires Render(TDict(entries), fmt, other).Ok?
    requires forall i, j :: 0 <= i < j < |entries| ==>
               RenderKey(entries[i].0, fmt, other) != RenderKey(entries[j].0, fmt, other)
    ensures var r := Render(TDict(entries), fmt, other).value;
      r.RDict? && |r.entries| == |entries|
      && forall i :: 0 <= i < |entries| ==>
           Ok(r.entries[i].0) == RenderKey(entries[i].0, fmt, other)
           && Ok(r.entries[i].1) == Render(entries[i].1, fmt, other)
  {
    var t := TDict(entries);
    var ps := RenderPairs(t, |entries|, fmt, other);
    assert t.entries == entries;
    assert DistinctKeys(ps.value) by {
      forall i, j | 0 <= i < j < |ps.value|
        ensures ps.value[i].0 != ps.value[j].0
      {
        assert RenderKey(entries[i].0, fmt, other) != RenderKey(entries[j].0, fmt, other);
      }
    }
    FromDistinctPairs(ps.value);
  }
}
