/** Error utilities: the application's error class and the query string that
    the server-side and client-side redirects to the error page build.

    A parameter object is given as its `Object.entries`: key/value pairs in the
    object's own order. The query is the ordered list of name/value pairs of a
    `URLSearchParams`; its percent-encoding is not part of this model. */
module ErrorUtils {
  import opened Fallback

  // ---------------------------------------------------------------------------
  // AppError

  /** An `Error` whose name is "AppError" and that may carry a code. */
  class AppError {
    var name: string
    var message: string
    var code: Option<string>

    /** `super(message)` sets the message; the parameter property stores the
        code as given; the body renames the error and, for a non-empty code,
        stores the code once more. */
    constructor (message: string, code: Option<string>)
      ensures this.name == "AppError"
      ensures this.message == message
      ensures this.code == code
    {
      this.message := message;
      this.name := "Error";
      this.code := code;
      new;
      this.name := "AppError";
      if code.Some? && TruthyText(code.value) {
        this.code := code;
      }
    }
  }

  // ---------------------------------------------------------------------------
  // Parameter values and name/value lists

  /** A value of an error-page parameter: `undefined`, a string or a boolean. */
  datatype ParamValue = Undefined | Text(s: string) | Flag(b: bool)

  /** A name/value pair of the query. */
  type Param = (string, string)

  /** JavaScript's `String(value)`: a string is itself, a boolean its name. */
  function Stringify(v: ParamValue): (r: string)
    ensures v.Text? ==> r == v.s
    ensures v.Flag? ==> (r == "true" <==> v.b) && (r == "false" <==> !v.b)
  {
    match v
    case Undefined => "undefined"
    case Text(s) => s
    case Flag(b) => if b then "true" else "false"
  }

  predicate HasKey<V>(ps: seq<(string, V)>, k: string) {
    exists i :: 0 <= i < |ps| && ps[i].0 == k
  }

  predicate KeysDistinct<V>(ps: seq<(string, V)>) {
    forall i, j :: 0 <= i < j < |ps| ==> ps[i].0 != ps[j].0
  }

  /** Some entry has key `k` and a defined value. */
  predicate DefinedKey(es: seq<(string, ParamValue)>, k: string) {
    exists i :: 0 <= i < |es| && es[i].0 == k && !es[i].1.Undefined?
  }

  lemma ConsKeys<V>(x: (string, V), t: seq<(string, V)>, k: string)
    ensures HasKey([x] + t, k) <==> x.0 == k || HasKey(t, k)
  {
    if HasKey(t, k) {
      var i :| 0 <= i < |t| && t[i].0 == k;
      assert ([x] + t)[i + 1] == t[i];
    }
    if HasKey([x] + t, k) && x.0 != k {
      var i :| 0 <= i < |[x] + t| && ([x] + t)[i].0 == k;
      assert ([x] + t)[0] == x;
      assert t[i - 1] == ([x] + t)[i];
    }
  }

  lemma ConsDistinct<V>(x: (string, V), t: seq<(string, V)>)
    ensures KeysDistinct([x] + t) <==> !HasKey(t, x.0) && KeysDistinct(t)
  {
    var s := [x] + t;
    if KeysDistinct(s) {
      forall i | 0 <= i < |t| ensures t[i].0 != x.0 {
        assert s[0] == x && s[i + 1] == t[i];
      }
      forall i, j | 0 <= i < j < |t| ensures t[i].0 != t[j].0 {
        assert s[i + 1] == t[i] && s[j + 1] == t[j];
      }
    }
    if !HasKey(t, x.0) && KeysDistinct(t) {
      forall i, j | 0 <= i < j < |s| ensures s[i].0 != s[j].0 {
        if i == 0 {
          assert s[j] == t[j - 1];
        } else {
          assert s[i] == t[i - 1] && s[j] == t[j - 1];
        }
      }
    }
  }

  // ---------------------------------------------------------------------------
  // URLSearchParams.set

  /** Every pair whose name is `k` taken out. */
  function RemoveKey(ps: seq<Param>, k: string): (r: seq<Param>)
    ensures forall k' :: HasKey(r, k') <==> HasKey(ps, k') && k' != k
    ensures forall p :: p in r <==> p in ps && p.0 != k
    ensures KeysDistinct(ps) ==> KeysDistinct(r)
  {
    if ps == [] then []
    else
      var rest := RemoveKey(ps[1..], k);
      assert ps == [ps[0]] + ps[1..];
      forall k' ensures HasKey(ps, k') <==> ps[0].0 == k' || HasKey(ps[1..], k') {
        ConsKeys(ps[0], ps[1..], k');
      }
      if ps[0].0 == k then
        assert KeysDistinct(ps) ==> KeysDistinct(ps[1..]) by { ConsDistinct(ps[0], ps[1..]); }
        rest
      else
        assert forall k' :: HasKey([ps[0]] + rest, k') <==> ps[0].0 == k' || HasKey(rest, k') by {
          forall k' { ConsKeys(ps[0], rest, k'); }
        }
        assert KeysDistinct(ps) ==> KeysDistinct([ps[0]] + rest) by {
          ConsDistinct(ps[0], ps[1..]);
          ConsDistinct(ps[0], rest);
        }
        [ps[0]] + rest
  }

  /** The first pair named `k` gets value `v` and the later ones are removed. */
  function ReplaceFirst(ps: seq<Param>, k: string, v: string): (r: seq<Param>)
    requires HasKey(ps, k)
    ensures forall k' :: HasKey(r, k') <==> HasKey(ps, k')
    ensures (k, v) in r
    ensures forall p :: p in r <==> p == (k, v) || (p in ps && p.0 != k)
    ensures KeysDistinct(ps) ==> KeysDistinct(r)
  {
    assert ps == [ps[0]] + ps[1..];
    forall k' ensures HasKey(ps, k') <==> ps[0].0 == k' || HasKey(ps[1..], k') {
      ConsKeys(ps[0], ps[1..], k');
    }
    if ps[0].0 == k then
      var rest := RemoveKey(ps[1..], k);
      assert forall k' :: HasKey([(k, v)] + rest, k') <==> k == k' || HasKey(rest, k') by {
        forall k' { ConsKeys((k, v), rest, k'); }
      }
      assert KeysDistinct(ps) ==> KeysDistinct([(k, v)] + rest) by {
        ConsDistinct(ps[0], ps[1..]);
        ConsDistinct((k, v), rest);
      }
      [(k, v)] + rest
    else
      var rest := ReplaceFirst(ps[1..], k, v);
      assert forall k' :: HasKey([ps[0]] + rest, k') <==> ps[0].0 == k' || HasKey(rest, k') by {
        forall k' { ConsKeys(ps[0], rest, k'); }
      }
      assert KeysDistinct(ps) ==> KeysDistinct([ps[0]] + rest) by {
        ConsDistinct(ps[0], ps[1..]);
        ConsDistinct(ps[0], rest);
      }
      [ps[0]] + rest
  }

  /** `params.set(k, v)`: with a pair named `k` already present, the first
      such pair takes `v` and the others go; otherwise `(k, v)` is appended. */
  function SetParam(ps: seq<Param>, k: string, v: string): (r: seq<Param>)
    ensures forall k' :: HasKey(r, k') <==> HasKey(ps, k') || k' == k
    ensures (k, v) in r
    ensures forall p :: p in r <==> p == (k, v) || (p in ps && p.0 != k)
    ensures KeysDistinct(ps) ==> KeysDistinct(r)
    ensures !HasKey(ps, k) ==> r == ps + [(k, v)]
  {
    if HasKey(ps, k) then ReplaceFirst(ps, k, v)
    else
      var r := ps + [(k, v)];
      assert r[|ps|].0 == k;
      forall p | p in ps ensures p.0 != k {
        var i :| 0 <= i < |ps| && ps[i] == p;
      }
      assert forall k' :: HasKey(r, k') ==> HasKey(ps, k') || k' == k by {
        forall k' | HasKey(r, k') ensures HasKey(ps, k') || k' == k {
          var i :| 0 <= i < |r| && r[i].0 == k';
          if i < |ps| { assert ps[i] == r[i]; }
        }
      }
      assert forall k' :: HasKey(ps, k') ==> HasKey(r, k') by {
        forall k' | HasKey(ps, k') ensures HasKey(r, k') {
          var i :| 0 <= i < |ps| && ps[i].0 == k';
          assert r[i] == ps[i];
        }
      }
      r
  }

  // ---------------------------------------------------------------------------
  // The query the redirects build

  /** The query after `set` has been called, in entry order, for every entry
      whose value is not `undefined`. */
  function SetAll(es: seq<(string, ParamValue)>): (r: seq<Param>)
    ensures KeysDistinct(r)
    ensures forall k :: HasKey(r, k) <==> DefinedKey(es, k)
  {
    if es == [] then []
    else
      var init := es[..|es| - 1];
      var last := es[|es| - 1];
      var ps := SetAll(init);
      assert forall k :: DefinedKey(es, k) <==> DefinedKey(init, k) || (last.0 == k && !last.1.Undefined?) by {
        forall k | DefinedKey(es, k) && !(last.0 == k && !last.1.Undefined?) ensures DefinedKey(init, k) {
          var i :| 0 <= i < |es| && es[i].0 == k && !es[i].1.Undefined?;
          assert i < |es| - 1 && init[i] == es[i];
        }
        forall k | DefinedKey(init, k) ensures DefinedKey(es, k) {
          var i :| 0 <= i < |init| && init[i].0 == k && !init[i].1.Undefined?;
          assert es[i] == init[i];
        }
      }
      if last.1.Undefined? then ps else SetParam(ps, last.0, Stringify(last.1))
  }

  /** Reference definition: each entry with a defined value, as its key and
      its `String` value, in entry order; entries with `undefined` dropped. */
  function EncodeEntry(e: (string, ParamValue)): seq<Param> {
    if e.1.Undefined? then [] else [(e.0, Stringify(e.1))]
  }

  function Encoded(es: seq<(string, ParamValue)>): seq<Param> {
    if es == [] then [] else EncodeEntry(es[0]) + Encoded(es[1..])
  }

  /** Encoding distributes over concatenation: the query keeps entry order. */
  lemma {:induction false} EncodedAppend(a: seq<(string, ParamValue)>, b: seq<(string, ParamValue)>)
    ensures Encoded(a + b) == Encoded(a) + Encoded(b)
  {
    if a == [] {
      assert a + b == b;
    } else {
      assert (a + b)[0] == a[0];
      assert (a + b)[1..] == a[1..] + b;
      EncodedAppend(a[1..], b);
    }
  }

  /** Every pair of the encoding comes from an entry with a defined value and
      carries that value's `String`; an `undefined` value never appears. */
  lemma {:induction false} EncodedFromDefinedEntries(es: seq<(string, ParamValue)>)
    ensures forall p :: p in Encoded(es) ==>
      exists i :: 0 <= i < |es| && es[i].0 == p.0 && !es[i].1.Undefined? && p.1 == Stringify(es[i].1)
    ensures forall k :: HasKey(Encoded(es), k) <==> DefinedKey(es, k)
  {
    if es != [] {
      EncodedFromDefinedEntries(es[1..]);
      var t := Encoded(es[1..]);
      assert Encoded(es) == EncodeEntry(es[0]) + t;
      forall p | p in Encoded(es)
        ensures exists i :: 0 <= i < |es| && es[i].0 == p.0 && !es[i].1.Undefined? && p.1 == Stringify(es[i].1)
      {
        if p in t {
          var j :| 0 <= j < |es[1..]| && es[1..][j].0 == p.0 && !es[1..][j].1.Undefined? && p.1 == Stringify(es[1..][j].1);
          assert es[j + 1] == es[1..][j];
        } else {
          assert p in EncodeEntry(es[0]);
        }
      }
      forall k ensures HasKey(Encoded(es), k) <==> DefinedKey(es, k) {
        if HasKey(Encoded(es), k) {
          var i :| 0 <= i < |Encoded(es)| && Encoded(es)[i].0 == k;
          assert Encoded(es)[i] in Encoded(es);
        }
        if DefinedKey(es, k) {
          var i :| 0 <= i < |es| && es[i].0 == k && !es[i].1.Undefined?;
          if i == 0 {
            assert Encoded(es)[0].0 == k;
          } else {
            assert es[1..][i - 1] == es[i];
            assert DefinedKey(es[1..], k);
            var j :| 0 <= j < |t| && t[j].0 == k;
            assert Encoded(es)[|EncodeEntry(es[0])| + j] == t[j];
          }
        }
      }
    }
  }

  /** Object keys are distinct, and for such entries the step-by-step `set`
      calls produce exactly the reference encoding. */
  lemma {:induction false} SetAllIsEncoded(es: seq<(string, ParamValue)>)
    requires KeysDistinct(es)
    ensures SetAll(es) == Encoded(es)
  {
    if es != [] {
      var init := es[..|es| - 1];
      var last := es[|es| - 1];
      assert es == init + [last];
      assert KeysDistinct(init);
      SetAllIsEncoded(init);
      EncodedAppend(init, [last]);
      assert Encoded([last]) == EncodeEntry(last);
      if !last.1.Undefined? {
        assert !DefinedKey(init, last.0);
        assert !HasKey(SetAll(init), last.0);
      }
    }
  }

  /** Every entry with a defined value has its pair in the encoding. */
  lemma {:induction false} EncodedContains(es: seq<(string, ParamValue)>, i: int)
    requires 0 <= i < |es| && !es[i].1.Undefined?
    ensures (es[i].0, Stringify(es[i].1)) in Encoded(es)
  {
    assert Encoded(es) == EncodeEntry(es[0]) + Encoded(es[1..]);
    if i > 0 {
      assert es[1..][i - 1] == es[i];
      EncodedContains(es[1..], i - 1);
    }
  }

  /** With distinct keys, each defined parameter appears exactly once. */
  lemma DefinedParamsAppearOnce(es: seq<(string, ParamValue)>, i: int)
    requires KeysDistinct(es) && 0 <= i < |es| && !es[i].1.Undefined?
    ensures (es[i].0, Stringify(es[i].1)) in SetAll(es)
    ensures forall j, k :: 0 <= j < k < |SetAll(es)| ==> SetAll(es)[j].0 != SetAll(es)[k].0
  {
    SetAllIsEncoded(es);
    EncodedContains(es, i);
  }

  /** The serialised query: `name=value` pairs joined by `&`. It is empty
      exactly for no pairs, and starts with the first pair. */
  function QueryString(ps: seq<Param>): (r: string)
    ensures r == "" <==> ps == []
    ensures ps != [] ==> |r| >= |ps[0].0| + 1 + |ps[0].1| && r[..|ps[0].0| + 1 + |ps[0].1|] == ps[0].0 + "=" + ps[0].1
  {
    if ps == [] then ""
    else if |ps| == 1 then ps[0].0 + "=" + ps[0].1
    else ps[0].0 + "=" + ps[0].1 + "&" + QueryString(ps[1..])
  }

  /** A single pair serialises as `name=value`. */
  lemma {:induction false} QueryStringSingle(p: Param)
    ensures QueryString([p]) == p.0 + "=" + p.1
  {
  }

  /** Serialising two non-empty runs of pairs one after the other joins their
      queries with `&`: every pair is written, in order. */
  lemma {:induction false} QueryStringAppend(a: seq<Param>, b: seq<Param>)
    requires a != [] && b != []
    ensures QueryString(a + b) == QueryString(a) + "&" + QueryString(b)
  {
    if |a| == 1 {
      assert (a + b)[1..] == b;
    } else {
      assert (a + b)[1..] == a[1..] + b;
      QueryStringAppend(a[1..], b);
    }
  }

  /** The error page's address for a query. */
  function ErrorTarget(ps: seq<Param>): (r: string)
    ensures |r| >= 7 && r[..7] == "/error?"
    ensures ps == [] ==> r == "/error?"
  {
    "/error?" + QueryString(ps)
  }

  // ---------------------------------------------------------------------------
  // The redirects

  /** The loop both redirects run: `params.set(key, String(value))` for every
      entry whose value is not `undefined`. */
  method BuildParams(entries: seq<(string, ParamValue)>) returns (params: seq<Param>)
    ensures params == SetAll(entries)
    ensures KeysDistinct(params)
    ensures forall k :: HasKey(params, k) <==> DefinedKey(entries, k)
    ensures KeysDistinct(entries) ==> params == Encoded(entries)
  {
    params := [];
    var i := 0;
    while i < |entries|
      invariant 0 <= i <= |entries|
      invariant params == SetAll(entries[..i])
    {
      var (key, value) := entries[i];
      assert entries[..i + 1][..i] == entries[..i];
      if !value.Undefined? {
        params := SetParam(params, key, Stringify(value));
      }
      i := i + 1;
    }
    assert entries[..i] == entries;
    if KeysDistinct(entries) {
      SetAllIsEncoded(entries);
    }
  }

  /** `redirectToErrorPage`: the address the server redirects to. */
  method RedirectToErrorPage(entries: seq<(string, ParamValue)>) returns (target: string)
    ensures target == ErrorTarget(SetAll(entries))
    ensures |target| >= 7 && target[..7] == "/error?"
  {
    var params := BuildParams(entries);
    target := "/error?" + QueryString(params);
  }

  /** `clientRedirectToErrorPage`: the address the browser is sent to; the same
      as the server's for the same parameters. */
  method ClientRedirectToErrorPage(entries: seq<(string, ParamValue)>) returns (target: string)
    ensures target == ErrorTarget(SetAll(entries))
    ensures |target| >= 7 && target[..7] == "/error?"
  {
    var params := BuildParams(entries);
    target := "/error?" + QueryString(params);
  }

  /** An `undefined` message is dropped and a boolean becomes "true". */
  lemma UndefinedDroppedBooleanStringified()
    ensures SetAll([("error", Text("No code")), ("message", Undefined), ("goBack", Flag(true))])
         == [("error", "No code"), ("goBack", "true")]
  {
    var es := [("error", Text("No code")), ("message", Undefined), ("goBack", Flag(true))];
    SetAllIsEncoded(es);
    assert es[1..] == [("message", Undefined), ("goBack", Flag(true))];
    assert es[1..][1..] == [("goBack", Flag(true))];
  }
}
