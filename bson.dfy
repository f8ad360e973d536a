/** BSON values and ordered documents as the data-access layer builds them. */
module Bson {
  import opened Api

  /** The values that occur in the documents of the data-access layer. */
  datatype Val =
    | VString(s: string)
    | VInt(i: int)
    | VDouble(r: real)
    | VBool(b: bool)
    | VDateTime(t: Time)
    | VObjectId(id: ObjectId)
    | VRegex(pattern: string, options: string)
    | VDoc(fields: seq<(string, Val)>)
    | VArray(items: seq<Val>)

  /** An ordered document (bson.D): a sequence of key/value elements (bson.E). */
  type Doc = seq<(string, Val)>

  /** An unordered document (bson.M). */
  type MapDoc = map<string, Val>

  /** The keys of an ordered document, in order. */
  function Keys(d: Doc): (ks: seq<string>)
    ensures |ks| == |d|
    ensures forall i | 0 <= i < |d| :: ks[i] == d[i].0
  {
    if d == [] then [] else [d[0].0] + Keys(d[1..])
  }

  lemma {:induction false} KeysAppend(a: Doc, b: Doc)
    ensures Keys(a + b) == Keys(a) + Keys(b)
  {
    assert |Keys(a + b)| == |Keys(a) + Keys(b)|;
    forall i | 0 <= i < |a + b|
      ensures Keys(a + b)[i] == (Keys(a) + Keys(b))[i]
    {
      if i < |a| {
        assert (a + b)[i] == a[i];
      } else {
        assert (a + b)[i] == b[i - |a|];
      }
    }
  }

  /** `[k]` when `b` holds, and nothing otherwise. */
  function Pick(k: string, b: bool): seq<string> {
    if b then [k] else []
  }

  /** An element that is present only when `b` holds has key `k` only then. */
  lemma KeysOfOptional(k: string, v: Val, b: bool)
    ensures Keys(if b then [(k, v)] else []) == Pick(k, b)
  {
  }

  /** The keys of `ks` whose flag in `keep` is set, in the order of `ks`. */
  function Chosen(ks: seq<string>, keep: seq<bool>): seq<string>
    requires |ks| == |keep|
  {
    if ks == [] then [] else Pick(ks[0], keep[0]) + Chosen(ks[1..], keep[1..])
  }

  predicate NoDuplicates(ks: seq<string>) {
    forall i, j | 0 <= i < j < |ks| :: ks[i] != ks[j]
  }

  /** A key is chosen iff it occurs at a position whose flag is set. */
  lemma {:induction false} ChosenMembers(ks: seq<string>, keep: seq<bool>, k: string)
    requires |ks| == |keep|
    ensures k in Chosen(ks, keep) <==> exists i :: 0 <= i < |ks| && ks[i] == k && keep[i]
  {
    if ks != [] {
      ChosenMembers(ks[1..], keep[1..], k);
      if k in Chosen(ks[1..], keep[1..]) {
        var i :| 0 <= i < |ks[1..]| && ks[1..][i] == k && keep[1..][i];
        assert ks[i + 1] == k && keep[i + 1];
      }
      if exists i :: 0 <= i < |ks| && ks[i] == k && keep[i] {
        var i :| 0 <= i < |ks| && ks[i] == k && keep[i];
        if i > 0 {
          assert ks[1..][i - 1] == k && keep[1..][i - 1];
        }
      }
    }
  }

  /** Choosing from a list without repetitions gives a list without repetitions. */
  lemma {:induction false} ChosenNoDuplicates(ks: seq<string>, keep: seq<bool>)
    requires |ks| == |keep| && NoDuplicates(ks)
    ensures NoDuplicates(Chosen(ks, keep))
  {
    if ks != [] {
      assert NoDuplicates(ks[1..]) by {
        forall i, j | 0 <= i < j < |ks[1..]| ensures ks[1..][i] != ks[1..][j] {
          assert ks[1..][i] == ks[i + 1] && ks[1..][j] == ks[j + 1];
        }
      }
      ChosenNoDuplicates(ks[1..], keep[1..]);
      assert forall i | 0 <= i < |ks[1..]| :: ks[1..][i] != ks[0] by {
        forall i | 0 <= i < |ks[1..]| ensures ks[1..][i] != ks[0] {
          assert ks[1..][i] == ks[i + 1];
        }
      }
      ChosenMembers(ks[1..], keep[1..], ks[0]);
    }
  }

  lemma ChosenCons(k: string, b: bool, ks: seq<string>, keep: seq<bool>)
    requires |ks| == |keep|
    ensures Chosen([k] + ks, [b] + keep) == Pick(k, b) + Chosen(ks, keep)
  {
    assert ([k] + ks)[1..] == ks;
    assert ([b] + keep)[1..] == keep;
  }

  lemma {:induction false} ChosenAppend(a: seq<string>, p: seq<bool>, b: seq<string>, q: seq<bool>)
    requires |a| == |p| && |b| == |q|
    ensures Chosen(a + b, p + q) == Chosen(a, p) + Chosen(b, q)
  {
    if a == [] {
      assert a + b == b && p + q == q;
    } else {
      assert (a + b)[1..] == a[1..] + b && (p + q)[1..] == p[1..] + q;
      assert (a + b)[0] == a[0] && (p + q)[0] == p[0];
      ChosenAppend(a[1..], p[1..], b, q);
    }
  }

  lemma ChosenOfThree(k0: string, k1: string, k2: string, b0: bool, b1: bool, b2: bool)
    ensures Chosen([k0, k1, k2], [b0, b1, b2]) == Pick(k0, b0) + (Pick(k1, b1) + Pick(k2, b2))
  {
    ChosenCons(k2, b2, [], []);
    assert [k2] == [k2] + [] && [b2] == [b2] + [];
    ChosenCons(k1, b1, [k2], [b2]);
    assert [k1, k2] == [k1] + [k2] && [b1, b2] == [b1] + [b2];
    ChosenCons(k0, b0, [k1, k2], [b1, b2]);
    assert [k0, k1, k2] == [k0] + [k1, k2] && [b0, b1, b2] == [b0] + [b1, b2];
  }
}
