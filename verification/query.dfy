/** Query parameters as the client hands them to the HTTP layer: an ordered
    list of (name, value) string pairs, before percent-encoding. `Encode`
    turns a list of named optional arguments into such a list, keeping the
    present ones in order and dropping the absent ones. */
module Query {
  import opened Optional

  /** One query pair: (name, rendered value). */
  type Param = (string, string)

  /** One named call argument; `None` when the caller left it out. */
  type Arg = (string, Option<string>)

  function Keys(ps: seq<Param>): (ks: seq<string>)
    ensures |ks| == |ps|
  {
    if |ps| == 0 then [] else [ps[0].0] + Keys(ps[1..])
  }

  /** The value of the first pair named `k`, if any. */
  function Lookup(ps: seq<Param>, k: string): (r: Option<string>)
    ensures r.None? <==> k !in Keys(ps)
  {
    if |ps| == 0 then None
    else if ps[0].0 == k then Some(ps[0].1)
    else Lookup(ps[1..], k)
  }

  predicate DistinctKeys(ps: seq<Param>)
  {
    forall i, j :: 0 <= i < j < |ps| ==> ps[i].0 != ps[j].0
  }

  predicate DistinctNames(args: seq<Arg>)
  {
    forall i, j :: 0 <= i < j < |args| ==> args[i].0 != args[j].0
  }

  /** Names of the present arguments, in call order. */
  function PresentNames(args: seq<Arg>): seq<string>
  {
    if |args| == 0 then [] else (if args[0].1.Some? then [args[0].0] else []) + PresentNames(args[1..])
  }

  /** The parameter encoder: one pair per present argument, in order. */
  function Encode(args: seq<Arg>): (ps: seq<Param>)
    ensures Keys(ps) == PresentNames(args)
    ensures |ps| <= |args|
  {
    if |args| == 0 then []
    else match args[0].1
      case None => Encode(args[1..])
      case Some(v) =>
        var rest := Encode(args[1..]);
        assert ([(args[0].0, v)] + rest)[1..] == rest;
        [(args[0].0, v)] + rest
  }

  /** When every argument is present, the i-th pair is the i-th argument. */
  lemma {:induction false} EncodeAllPresent(args: seq<Arg>)
    requires forall i :: 0 <= i < |args| ==> args[i].1.Some?
    ensures |Encode(args)| == |args|
    ensures forall i :: 0 <= i < |args| ==> Encode(args)[i] == (args[i].0, args[i].1.value)
    decreases |args|
  {
    if |args| > 0 {
      EncodeAllPresent(args[1..]);
      assert forall i :: 1 <= i < |args| ==> args[1..][i - 1] == args[i];
    }
  }

  lemma {:induction false} PresentNamesFrom(args: seq<Arg>, k: string)
    requires forall i :: 0 <= i < |args| ==> args[i].0 != k
    ensures k !in PresentNames(args)
    decreases |args|
  {
    if |args| > 0 {
      PresentNamesFrom(args[1..], k);
    }
  }

  /** Looking an argument's name up in the encoded list gives back exactly
      that argument: its value when present, nothing when absent. */
  lemma {:induction false} EncodeLookup(args: seq<Arg>, i: nat)
    requires DistinctNames(args)
    requires i < |args|
    ensures Lookup(Encode(args), args[i].0) == args[i].1
    decreases |args|
  {
    var k := args[i].0;
    var tail := args[1..];
    if i == 0 {
      if args[0].1.None? {
        forall j | 0 <= j < |tail|
          ensures tail[j].0 != k
        {
          assert tail[j] == args[j + 1];
        }
        PresentNamesFrom(tail, k);
        assert Encode(args) == Encode(tail);
      } else {
        assert Encode(args)[0] == (k, args[0].1.value);
      }
    } else {
      assert args[0].0 != k;
      assert tail[i - 1] == args[i];
      assert DistinctNames(tail) by {
        forall a, b | 0 <= a < b < |tail|
          ensures tail[a].0 != tail[b].0
        {
          assert tail[a] == args[a + 1] && tail[b] == args[b + 1];
        }
      }
      EncodeLookup(tail, i - 1);
      if args[0].1.Some? {
        var ps := Encode(args);
        assert ps[0].0 != k && ps[1..] == Encode(tail);
      } else {
        assert Encode(args) == Encode(tail);
      }
    }
  }

  /** Arguments with distinct names give pairs with distinct names. */
  lemma {:induction false} EncodeDistinct(args: seq<Arg>)
    requires DistinctNames(args)
    ensures DistinctKeys(Encode(args))
    decreases |args|
  {
    if |args| > 0 {
      EncodeDistinct(args[1..]);
      var rest := Encode(args[1..]);
      if args[0].1.Some? {
        var ps := Encode(args);
        forall m | 0 <= m < |args[1..]|
          ensures args[1..][m].0 != args[0].0
        {
          assert args[1..][m] == args[m + 1];
        }
        PresentNamesFrom(args[1..], args[0].0);
        forall j | 0 <= j < |rest|
          ensures rest[j].0 != args[0].0
        {
          KeysIndex(rest, j);
        }
        assert forall j :: 1 <= j < |ps| ==> ps[j] == rest[j - 1];
      }
    }
  }

  lemma {:induction false} KeysIndex(ps: seq<Param>, j: nat)
    requires j < |ps|
    ensures ps[j].0 in Keys(ps)
    decreases |ps|
  {
    if j > 0 {
      KeysIndex(ps[1..], j - 1);
      assert ps[1..][j - 1] == ps[j];
    }
  }

  /** All argument names, present or not. */
  function Names(args: seq<Arg>): (ns: seq<string>)
    ensures |ns| == |args|
    ensures forall i :: 0 <= i < |args| ==> ns[i] == args[i].0
  {
    seq(|args|, i requires 0 <= i < |args| => args[i].0)
  }

  lemma {:induction false} PresentNamesAppend(a: seq<Arg>, b: seq<Arg>)
    ensures PresentNames(a + b) == PresentNames(a) + PresentNames(b)
    decreases |a|
  {
    if |a| > 0 {
      assert (a + b)[1..] == a[1..] + b;
      PresentNamesAppend(a[1..], b);
    } else {
      assert a + b == b;
    }
  }

  /** When every argument is present, every name is sent. */
  lemma {:induction false} PresentNamesAll(args: seq<Arg>)
    requires forall i :: 0 <= i < |args| ==> args[i].1.Some?
    ensures PresentNames(args) == Names(args)
    decreases |args|
  {
    if |args| > 0 {
      PresentNamesAll(args[1..]);
    }
  }

  /** `[k]` when the argument named `k` is present, nothing otherwise. */
  function OptKey(k: string, present: bool): seq<string>
  {
    if present then [k] else []
  }

  /** Three possibly absent arguments. */
  lemma OptionalNames3(args: seq<Arg>)
    requires |args| == 3
    ensures PresentNames(args) == OptKey(args[0].0, args[0].1.Some?)
                                + OptKey(args[1].0, args[1].1.Some?)
                                + OptKey(args[2].0, args[2].1.Some?)
  {
    var a1, a2 := args[1..], args[2..];
    assert a1[0] == args[1] && a1[1..] == a2;
    assert a2[0] == args[2] && a2[1..] == [];
    assert PresentNames(a2) == OptKey(args[2].0, args[2].1.Some?) + PresentNames([]);
    assert PresentNames(a1) == OptKey(args[1].0, args[1].1.Some?) + PresentNames(a2);
  }

  /** Required arguments first, then optional ones: all the required names
      are sent, followed by the present optional ones. */
  lemma RequiredThenOptional(args: seq<Arg>, n: nat)
    requires n <= |args|
    requires forall i :: 0 <= i < n ==> args[i].1.Some?
    ensures PresentNames(args) == Names(args[..n]) + PresentNames(args[n..])
  {
    PresentNamesSplit(args, n);
    PresentNamesAll(args[..n]);
  }

  lemma PresentNamesSplit(args: seq<Arg>, n: nat)
    requires n <= |args|
    ensures PresentNames(args) == PresentNames(args[..n]) + PresentNames(args[n..])
  {
    assert args == args[..n] + args[n..];
    PresentNamesAppend(args[..n], args[n..]);
  }
}
