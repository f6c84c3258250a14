/** Helpers of `jupyter_server_proxy/utils.py`: calling a user callback with
    the arguments it asks for, and matching MIME types against patterns. */
module Utils {
  import opened Common

  /** The values of the asked names that `args` holds, in asked order: the
      list `call_with_asked_args` builds. */
  function AskedValues<V>(asked: seq<string>, args: map<string, V>): (r: seq<V>)
    ensures (forall i :: 0 <= i < |asked| ==> asked[i] in args) ==>
      |r| == |asked| && forall i :: 0 <= i < |asked| ==> r[i] == args[asked[i]]
  {
    if |asked| == 0 then []
    else
      var last := asked[|asked| - 1];
      AskedValues(asked[..|asked| - 1], args) + (if last in args then [args[last]] else [])
  }

  /** The asked names `args` does not hold, in asked order. */
  function MissingNames<V>(asked: seq<string>, args: map<string, V>): (r: seq<string>)
    ensures forall p :: p in r <==> p in asked && p !in args
    ensures |r| == 0 <==> forall i :: 0 <= i < |asked| ==> asked[i] in args
  {
    if |asked| == 0 then []
    else
      var last := asked[|asked| - 1];
      var init := asked[..|asked| - 1];
      assert forall p :: p in asked <==> p in init || p == last;
      MissingNames(init, args) + (if last in args then [] else [last])
  }

  /** What calling `callback` through `call_with_asked_args` yields: the
      callback's result on the asked values, or the TypeError naming every
      missing argument. */
  function AskedCall<V, R>(name: string, asked: seq<string>, callback: seq<V> -> R,
                           args: map<string, V>): Result<R>
  {
    var missing := MissingNames(asked, args);
    if |missing| > 0 then
      Err(TypeError(name + "() missing required positional argument: " + Join(missing, ", ")))
    else Ok(callback(AskedValues(asked, args)))
  }

  /** `call_with_asked_args(callback, args)`: the callback's positional
      parameter names are given as `asked` in declaration order. */
  method CallWithAskedArgs<V, R>(name: string, asked: seq<string>, callback: seq<V> -> R,
                                 args: map<string, V>) returns (r: Result<R>)
    ensures r == AskedCall(name, asked, callback, args)
    ensures r.Ok? <==> forall i :: 0 <= i < |asked| ==> asked[i] in args
  {
    var values: seq<V> := [];
    var missing: seq<string> := [];
    var i := 0;
    while i < |asked|
      invariant 0 <= i <= |asked|
      invariant values == AskedValues(asked[..i], args)
      invariant missing == MissingNames(asked[..i], args)
    {
      AskedPrefix(asked, args, i);
      var n := asked[i];
      if n in args {
        values := values + [args[n]];
      } else {
        missing := missing + [n];
      }
      i := i + 1;
    }
    assert asked[..i] == asked;
    if |missing| > 0 {
      r := Err(TypeError(name + "() missing required positional argument: " + Join(missing, ", ")));
    } else {
      r := Ok(callback(values));
    }
  }

  /** The values and missing names of one more asked name. */
  lemma AskedPrefix<V>(asked: seq<string>, args: map<string, V>, i: nat)
    requires i < |asked|
    ensures AskedValues(asked[..i + 1], args)
      == AskedValues(asked[..i], args) + (if asked[i] in args then [args[asked[i]]] else [])
    ensures MissingNames(asked[..i + 1], args)
      == MissingNames(asked[..i], args) + (if asked[i] in args then [] else [asked[i]])
  {
    assert asked[..i + 1][..i] == asked[..i];
  }

  /** The callback receives exactly the values of its declared parameters,
      in declaration order, whatever else `args` holds. */
  lemma AskedCallPassesDeclared<V, R>(name: string, asked: seq<string>, callback: seq<V> -> R,
                                      args: map<string, V>)
    requires forall i :: 0 <= i < |asked| ==> asked[i] in args
    ensures AskedCall(name, asked, callback, args)
      == Ok(callback(seq(|asked|, i requires 0 <= i < |asked| => args[asked[i]])))
  {
    var vs := AskedValues(asked, args);
    assert vs == seq(|asked|, i requires 0 <= i < |asked| => args[asked[i]]);
  }

  /** A missing argument raises TypeError before the callback runs, and the
      message names every missing parameter. */
  lemma AskedCallMissing<V, R>(name: string, asked: seq<string>, callback: seq<V> -> R,
                               args: map<string, V>, p: string)
    requires p in asked && p !in args
    ensures AskedCall(name, asked, callback, args).Err?
    ensures AskedCall(name, asked, callback, args).error
      == TypeError(name + "() missing required positional argument: "
                   + Join(MissingNames(asked, args), ", "))
    ensures p in MissingNames(asked, args)
  {
  }

  /** Multiplies its two arguments. */
  function Product(vs: seq<int>): int {
    if |vs| == 2 then vs[0] * vs[1] else 0
  }

  /** A callback of parameters `a, b` given `a=5, b=4, c=8` returns 20. */
  lemma AskedCallIgnoresExtra()
    ensures AskedCall("_test_func", ["a", "b"], Product, map["a" := 5, "b" := 4, "c" := 8]) == Ok(20)
  {
    var args := map["a" := 5, "b" := 4, "c" := 8];
    assert ["a", "b"][..1] == ["a"];
    assert AskedValues(["a", "b"], args) == [5, 4];
  }

  /** The type of a MIME type string: the part before `/`. */
  function MimeType(v: string): string {
    Split(v, '/')[0]
  }

  /** `mime_types_match(pattern, value)`: ValueError when the value (up to
      its first `;`) does not hold exactly one `/`, IndexError when a pattern
      without `/` equals the value's type. */
  function MimeTypesMatch(pattern: string, value: string): (r: Result<bool>)
    ensures pattern == Before(value, ';') ==> r == Ok(true)
    ensures pattern != Before(value, ';') && CountChar(Before(value, ';'), '/') != 1
      ==> r == Err(ValueError)
    ensures r == Err(IndexError) ==> CountChar(pattern, '/') == 0
  {
    FirstPartIsBefore(value, ';');
    var v := Split(value, ';')[0];
    if pattern == v then Ok(true)
    else
      var tv := Split(v, '/');
      if |tv| != 2 then Err(ValueError)
      else
        var pt := Split(pattern, '/');
        if pt[0] == "*" then Ok(true)
        else if pt[0] == tv[0] then
          (if |pt| < 2 then Err(IndexError) else Ok(pt[1] == "*"))
        else Ok(false)
  }

  // With a well-formed value and a pattern holding `/`, the match never
  // fails: it is true for an exact match, a `*` type, or the value's type
  // with a `*` subtype, and false otherwise.
  lemma MimeTypesMatchWellFormed(pattern: string, value: string)
    requires CountChar(Before(value, ';'), '/') == 1
    requires CountChar(pattern, '/') > 0
    ensures MimeTypesMatch(pattern, value).Ok?
    ensures MimeTypesMatch(pattern, value).value <==>
      pattern == Before(value, ';')
      || MimeType(pattern) == "*"
      || (MimeType(pattern) == MimeType(Before(value, ';')) && Split(pattern, '/')[1] == "*")
  {
    FirstPartIsBefore(value, ';');
  }

  // A pattern `*/s` matches every well-formed value.
  lemma MimeAnyType(s: string, value: string)
    requires '/' !in s
    requires CountChar(Before(value, ';'), '/') == 1
    ensures MimeTypesMatch("*/" + s, value) == Ok(true)
  {
    SplitTwo("*", s, '/');
    assert "*/" + s == "*" + ['/'] + s;
    FirstPartIsBefore(value, ';');
  }

  // A pattern `t/*` matches a well-formed value exactly when its type is `t`.
  lemma MimeAnySubtype(t: string, value: string)
    requires '/' !in t && t != "*"
    requires CountChar(Before(value, ';'), '/') == 1
    ensures MimeTypesMatch(t + "/*", value) == Ok(MimeType(Before(value, ';')) == t)
  {
    SplitTwo(t, "*", '/');
    assert t + "/*" == t + ['/'] + "*";
    FirstPartIsBefore(value, ';');
    var v := Before(value, ';');
    if t + "/*" == v {
      assert MimeType(v) == t;
    }
  }

  /** A `;` suffix of the value (parameters such as a charset) is ignored. */
  lemma MimeIgnoresParameters(pattern: string, value: string, params: string)
    requires ';' !in value
    ensures MimeTypesMatch(pattern, value + ";" + params) == MimeTypesMatch(pattern, value)
  {
    assert value + ";" + params == value + ([';'] + params);
    BeforeAbsent(value, [';'] + params, ';');
    assert value + "" == value;
    BeforeAbsent(value, "", ';');
    FirstPartIsBefore(value, ';');
    FirstPartIsBefore(value + ";" + params, ';');
  }
}
