/** A simplified form of the part of PostgreSQL's statement handling that
    the handlers depend on: positional parameters `$n` in the statement text,
    bound to the n-th entry of the parameter array. */
module Sql {
  import opened Text
  import opened Wrappers

  /** A value sent as a query parameter. `Null` is what an absent
      (`undefined`) spreadsheet cell becomes. */
  datatype Value = Null | Str(s: string) | Number(n: int) | Bool(b: bool)

  /** The reference `$n`. */
  function ParamRef(n: nat): string
  {
    "$" + Decimal(n)
  }

  /** Length of the run of digits that `s` starts with. */
  function DigitRun(s: string): (r: nat)
    ensures r <= |s| && AllDigits(s[..r])
    ensures r < |s| ==> !IsDigit(s[r])
  {
    if |s| > 0 && IsDigit(s[0]) then 1 + DigitRun(s[1..]) else 0
  }

  /** The parameter numbers referenced in a statement text, in order of
      appearance: a `$` followed by at least one digit. */
  function Params(s: string): seq<nat>
    decreases |s|
  {
    if |s| == 0 then []
    else if s[0] == '$' && DigitRun(s[1..]) > 0 then
      var k := DigitRun(s[1..]);
      assert s[1..1 + k] == s[1..][..k];
      [ParseDecimal(s[1..1 + k])] + Params(s[1 + k..])
    else Params(s[1..])
  }

  /** The parameter numbers 1, 2, ..., n in order: every parameter of an
      array of length n referenced once, by its position. */
  function Ordinals(n: nat): seq<nat>
  {
    seq(n, p requires 0 <= p < n => p + 1)
  }

  /** A text that ends here or goes on with something other than a digit,
      so that a reference before it is not extended. */
  predicate Delimited(rest: string) {
    rest == [] || !IsDigit(rest[0])
  }

  /** Text without `$` references nothing. */
  lemma {:induction false} ParamsOfPlain(p: string, rest: string)
    requires Avoids(p, '$')
    ensures Params(p + rest) == Params(rest)
  {
    if |p| > 0 {
      assert (p + rest)[1..] == p[1..] + rest;
      ParamsOfPlain(p[1..], rest);
    } else {
      assert p + rest == rest;
    }
  }

  lemma {:induction false} DigitRunOfDigits(d: string, rest: string)
    requires AllDigits(d) && Delimited(rest)
    ensures DigitRun(d + rest) == |d|
  {
    if |d| > 0 {
      assert (d + rest)[1..] == d[1..] + rest;
      DigitRunOfDigits(d[1..], rest);
    } else {
      assert d + rest == rest;
    }
  }

  /** `$n` followed by a delimiter is read as a reference to parameter n. */
  lemma ParamRefScans(n: nat, rest: string)
    requires Delimited(rest)
    ensures Params(ParamRef(n) + rest) == [n] + Params(rest)
  {
    var d := Decimal(n);
    var s := ParamRef(n) + rest;
    assert s[1..] == d + rest;
    DigitRunOfDigits(d, rest);
    assert s[1..1 + |d|] == d;
    assert s[1 + |d|..] == rest;
    ParseDecimalOfDecimal(n);
  }

  /** Text `p` contributes exactly the references `e`, whatever delimited
      text follows it. */
  ghost predicate ScansAs(p: string, e: seq<nat>) {
    forall rest: string {:trigger Params(p + rest)} ::
      Delimited(rest) ==> Params(p + rest) == e + Params(rest)
  }

  /** The concatenation of a sequence of sequences, as `Array.prototype.flat`
      does one level deep. */
  function Flatten<T>(gs: seq<seq<T>>): seq<T>
  {
    if |gs| == 0 then [] else gs[0] + Flatten(gs[1..])
  }

  lemma {:induction false} FlattenLength<T>(gs: seq<seq<T>>, c: nat)
    requires forall i :: 0 <= i < |gs| ==> |gs[i]| == c
    ensures |Flatten(gs)| == |gs| * c
  {
    if |gs| > 0 {
      FlattenLength(gs[1..], c);
    }
  }

  /** In a flattened sequence of rows of width `c`, entry `j * c + m` is
      entry `m` of row `j`. */
  lemma {:induction false} FlattenAt<T>(gs: seq<seq<T>>, c: nat, j: nat, m: nat)
    requires forall i :: 0 <= i < |gs| ==> |gs[i]| == c
    requires j < |gs| && m < c
    ensures |Flatten(gs)| == |gs| * c
    ensures j * c + m < |Flatten(gs)| && Flatten(gs)[j * c + m] == gs[j][m]
  {
    FlattenLength(gs, c);
    if j > 0 {
      FlattenAt(gs[1..], c, j - 1, m);
      assert j * c + m == c + ((j - 1) * c + m);
    }
  }

  lemma {:induction false} FlattenAppend<T>(gs: seq<seq<T>>, g: seq<T>)
    ensures Flatten(gs + [g]) == Flatten(gs) + g
  {
    if |gs| > 0 {
      assert (gs + [g])[1..] == gs[1..] + [g];
      FlattenAppend(gs[1..], g);
    } else {
      assert gs + [g] == [g];
    }
  }

  lemma {:induction false} FlattenSingletons<T>(s: seq<T>)
    ensures Flatten(seq(|s|, i requires 0 <= i < |s| => [s[i]])) == s
  {
    if |s| > 0 {
      var gs := seq(|s|, i requires 0 <= i < |s| => [s[i]]);
      assert gs[1..] == seq(|s[1..]|, i requires 0 <= i < |s[1..]| => [s[1..][i]]);
      FlattenSingletons(s[1..]);
    }
  }

  lemma ScansAroundAt(p: string, e: seq<nat>, sep: string, q: string, f: seq<nat>, rest: string)
    requires ScansAs(p, e) && ScansAs(q, f)
    requires |sep| > 0 && !IsDigit(sep[0]) && Avoids(sep, '$')
    requires Delimited(rest)
    ensures Params(p + sep + q + rest) == e + f + Params(rest)
  {
    var tail := q + rest;
    Regroup(p + sep, q, rest);
    Regroup(p, sep, q + rest);
    assert Params(p + (sep + tail)) == e + Params(sep + tail);
    ParamsOfPlain(sep, tail);
  }

  /** A separator without references, which cannot extend one, keeps the
      references on its two sides apart. */
  lemma ScansAround(p: string, e: seq<nat>, sep: string, q: string, f: seq<nat>)
    requires ScansAs(p, e) && ScansAs(q, f)
    requires |sep| > 0 && !IsDigit(sep[0]) && Avoids(sep, '$')
    ensures ScansAs(p + sep + q, e + f)
  {
    forall rest: string | Delimited(rest)
      ensures Params(p + sep + q + rest) == e + f + Params(rest)
    {
      ScansAroundAt(p, e, sep, q, f, rest);
    }
  }

  /** The references of `parts.join(sep)` are those of the parts in order,
      when the separator adds none and cannot extend a reference. */
  lemma {:induction false} JoinScans(parts: seq<string>, es: seq<seq<nat>>, sep: string)
    requires |parts| == |es|
    requires forall i :: 0 <= i < |parts| ==> ScansAs(parts[i], es[i])
    requires |sep| > 0 && !IsDigit(sep[0]) && Avoids(sep, '$')
    ensures ScansAs(Join(parts, sep), Flatten(es))
  {
    if |parts| == 0 {
      forall rest: string | Delimited(rest)
        ensures Params(Join(parts, sep) + rest) == Flatten(es) + Params(rest)
      {
        assert Join(parts, sep) + rest == rest;
      }
    } else if |parts| == 1 {
      assert Flatten(es) == es[0] + [];
      assert ScansAs(parts[0], es[0]);
    } else {
      JoinScans(parts[1..], es[1..], sep);
      assert ScansAs(parts[0], es[0]);
      ScansAround(parts[0], es[0], sep, Join(parts[1..], sep), Flatten(es[1..]));
    }
  }

  /** Cuts a sequence into consecutive rows of `c` entries, or `None` when
      its length is not a whole number of rows. */
  function Rows<T>(s: seq<T>, c: nat): Option<seq<seq<T>>>
    requires c > 0
    decreases |s|
  {
    if |s| == 0 then Some([])
    else if |s| < c then None
    else
      match Rows(s[c..], c)
      case Some(rest) => Some([s[..c]] + rest)
      case None => None
  }

  /** Cutting a flattened sequence of rows of width `c` into rows of `c`
      gives the rows back. */
  lemma {:induction false} RowsOfFlatten<T>(gs: seq<seq<T>>, c: nat)
    requires c > 0
    requires forall i :: 0 <= i < |gs| ==> |gs[i]| == c
    ensures Rows(Flatten(gs), c) == Some(gs)
  {
    if |gs| > 0 {
      var f := Flatten(gs);
      assert f == gs[0] + Flatten(gs[1..]);
      assert f[..c] == gs[0];
      assert f[c..] == Flatten(gs[1..]);
      RowsOfFlatten(gs[1..], c);
      assert gs == [gs[0]] + gs[1..];
    }
  }

  /** The parameters the references `idx` name, in order, or `None` when one
      of them is outside `1..|params|`. */
  function Resolve(idx: seq<nat>, params: seq<Value>): (r: Option<seq<Value>>)
    ensures r.Some? ==> |r.value| == |idx|
  {
    if |idx| == 0 then Some([])
    else if 1 <= idx[0] <= |params| then
      match Resolve(idx[1..], params)
      case Some(vs) => Some([params[idx[0] - 1]] + vs)
      case None => None
    else None
  }

  /** Resolving succeeds exactly when every reference is in range, and then
      yields the named parameter at each position. */
  lemma {:induction false} ResolveIn(idx: seq<nat>, params: seq<Value>)
    ensures var r := Resolve(idx, params);
      && (r.Some? <==> forall i :: 0 <= i < |idx| ==> 1 <= idx[i] <= |params|)
      && (r.Some? ==> forall i :: 0 <= i < |idx| ==> r.value[i] == params[idx[i] - 1])
  {
    if |idx| > 0 {
      ResolveIn(idx[1..], params);
      if 1 <= idx[0] <= |params| && Resolve(idx[1..], params).Some? {
        var vs := Resolve(idx[1..], params).value;
        forall i | 0 < i < |idx|
          ensures Resolve(idx, params).value[i] == params[idx[i] - 1]
        {
          assert idx[i] == idx[1..][i - 1];
        }
      } else if 1 <= idx[0] <= |params| {
        var j :| 0 <= j < |idx[1..]| && !(1 <= idx[1..][j] <= |params|);
        assert !(1 <= idx[j + 1] <= |params|);
      }
    }
  }

  /** References numbered 1, 2, ..., |params| in order name every
      parameter once, in order. */
  lemma ResolveInOrder(idx: seq<nat>, params: seq<Value>)
    requires |idx| == |params|
    requires forall i :: 0 <= i < |idx| ==> idx[i] == i + 1
    ensures Resolve(idx, params) == Some(params)
  {
    ResolveIn(idx, params);
    assert forall i :: 0 <= i < |idx| ==> 1 <= idx[i] <= |params|;
    var vs := Resolve(idx, params).value;
    assert forall i :: 0 <= i < |vs| ==> vs[i] == params[i];
    assert vs == params;
  }

  /** A simplified reading of a multi-row `INSERT` into a table of width
      `c`: the references of the text, in order, each replaced by the
      parameter it names and cut into rows of `c` values. A reference outside
      `1..|params|`, or a count that is not a whole number of rows, is
      refused. Unlike PostgreSQL, this reading ignores the parentheses of the
      `VALUES` list, accepts parameters that no reference names, and counts a
      `$n` inside a quoted literal as a reference. */
  function BoundRows(sql: string, params: seq<Value>, c: nat): Option<seq<seq<Value>>>
  {
    if c == 0 then None
    else
      match Resolve(Params(sql), params)
      case Some(vs) => Rows(vs, c)
      case None => None
  }

}
