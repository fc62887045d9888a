/** Generic sequence operations that the components use through JavaScript's
    Array.prototype.filter and Array.prototype.find. */
module Colecoes {

  datatype Option<+T> = None | Some(value: T)

  /** `s.filter(p)`: the elements of `s` satisfying `p`, in their original order. */
  function Filtrar<T>(s: seq<T>, p: T -> bool): (r: seq<T>)
    ensures |r| <= |s|
    ensures forall i :: 0 <= i < |r| ==> p(r[i])
    decreases |s|
  {
    if |s| == 0 then []
    else (if p(s[0]) then [s[0]] else []) + Filtrar(s[1..], p)
  }

  /** `s.findIndex(p)`, as an option: the first position whose element satisfies `p`. */
  function Primeiro<T>(s: seq<T>, p: T -> bool): (r: Option<nat>)
    ensures r.Some? ==> r.value < |s| && p(s[r.value])
    ensures r.Some? ==> forall j :: 0 <= j < r.value ==> !p(s[j])
    ensures r.None? <==> forall j :: 0 <= j < |s| ==> !p(s[j])
    decreases |s|
  {
    if |s| == 0 then None
    else if p(s[0]) then Some(0)
    else match Primeiro(s[1..], p)
      case None => None
      case Some(k) => Some(k + 1)
  }

  /** What `Filtrar` keeps: elements of `s` that satisfy `p`, and all of them. */
  lemma {:induction false} FiltrarPertence<T>(s: seq<T>, p: T -> bool)
    ensures forall i :: 0 <= i < |Filtrar(s, p)| ==> Filtrar(s, p)[i] in s
    ensures forall i :: 0 <= i < |s| && p(s[i]) ==> s[i] in Filtrar(s, p)
    decreases |s|
  {
    if |s| > 0 {
      FiltrarPertence(s[1..], p);
      var r := Filtrar(s, p);
      var t := Filtrar(s[1..], p);
      assert r == (if p(s[0]) then [s[0]] else []) + t;
      forall i | 0 <= i < |r|
        ensures r[i] in s
      {
        if p(s[0]) && i == 0 {
        } else {
          var j := if p(s[0]) then i - 1 else i;
          assert r[i] == t[j];
          assert t[j] in s[1..];
        }
      }
      forall i | 0 <= i < |s| && p(s[i])
        ensures s[i] in r
      {
        if i > 0 {
          assert s[i] == s[1..][i - 1];
        }
      }
    }
  }

  /** `a` is obtained from `b` by deleting elements: same relative order. */
  ghost predicate Subsequencia<T>(a: seq<T>, b: seq<T>)
    decreases |b|
  {
    |a| == 0 ||
    (|b| > 0 && ((a[0] == b[0] && Subsequencia(a[1..], b[1..])) || Subsequencia(a, b[1..])))
  }

  lemma {:induction false} FiltrarSubsequencia<T>(s: seq<T>, p: T -> bool)
    ensures Subsequencia(Filtrar(s, p), s)
    decreases |s|
  {
    if |s| > 0 {
      FiltrarSubsequencia(s[1..], p);
      var r := Filtrar(s, p);
      if p(s[0]) {
        assert r[0] == s[0] && r[1..] == Filtrar(s[1..], p);
      } else {
        assert r == Filtrar(s[1..], p);
      }
    }
  }

  lemma {:induction false} FiltrarConcat<T>(a: seq<T>, b: seq<T>, p: T -> bool)
    ensures Filtrar(a + b, p) == Filtrar(a, p) + Filtrar(b, p)
    decreases |a|
  {
    if |a| == 0 {
      assert a + b == b;
    } else {
      assert (a + b)[0] == a[0];
      assert (a + b)[1..] == a[1..] + b;
      FiltrarConcat(a[1..], b, p);
    }
  }

  /** Filtering by a predicate that every element satisfies changes nothing. */
  lemma {:induction false} FiltrarTodos<T>(s: seq<T>, p: T -> bool)
    requires forall i :: 0 <= i < |s| ==> p(s[i])
    ensures Filtrar(s, p) == s
    decreases |s|
  {
    if |s| > 0 {
      FiltrarTodos(s[1..], p);
    }
  }

  /** Filtering by a predicate that no element satisfies leaves nothing. */
  lemma {:induction false} FiltrarNenhum<T>(s: seq<T>, p: T -> bool)
    requires forall i :: 0 <= i < |s| ==> !p(s[i])
    ensures Filtrar(s, p) == []
    decreases |s|
  {
    if |s| > 0 {
      FiltrarNenhum(s[1..], p);
    }
  }

  /** Only the values of the predicate on the elements of `s` matter. */
  lemma {:induction false} FiltrarExtensional<T>(s: seq<T>, p: T -> bool, q: T -> bool)
    requires forall i :: 0 <= i < |s| ==> p(s[i]) == q(s[i])
    ensures Filtrar(s, p) == Filtrar(s, q)
    decreases |s|
  {
    if |s| > 0 {
      FiltrarExtensional(s[1..], p, q);
    }
  }

  /** Two filters in a row are one filter by the conjunction. */
  lemma {:induction false} FiltrarComposicao<T>(s: seq<T>, p: T -> bool, q: T -> bool, pq: T -> bool)
    requires forall i :: 0 <= i < |s| ==> pq(s[i]) == (p(s[i]) && q(s[i]))
    ensures Filtrar(Filtrar(s, p), q) == Filtrar(s, pq)
    decreases |s|
  {
    if |s| > 0 {
      FiltrarComposicao(s[1..], p, q, pq);
      var head := if p(s[0]) then [s[0]] else [];
      FiltrarConcat(head, Filtrar(s[1..], p), q);
    }
  }

  /** Filters by two predicates that no element satisfies together keep at most |s| elements between them. */
  lemma {:induction false} FiltrarDisjuntos<T>(s: seq<T>, p: T -> bool, q: T -> bool)
    requires forall i :: 0 <= i < |s| ==> !(p(s[i]) && q(s[i]))
    ensures |Filtrar(s, p)| + |Filtrar(s, q)| <= |s|
    decreases |s|
  {
    if |s| > 0 {
      FiltrarDisjuntos(s[1..], p, q);
    }
  }

  /** A weaker predicate keeps at least as many elements. */
  lemma {:induction false} FiltrarMonotono<T>(s: seq<T>, p: T -> bool, q: T -> bool)
    requires forall i :: 0 <= i < |s| ==> p(s[i]) ==> q(s[i])
    ensures |Filtrar(s, p)| <= |Filtrar(s, q)|
    decreases |s|
  {
    if |s| > 0 {
      FiltrarMonotono(s[1..], p, q);
    }
  }

  /** The positions of `s` whose element satisfies `p`. */
  ghost function IndicesQue<T>(s: seq<T>, p: T -> bool): set<int>
  {
    set i | 0 <= i < |s| && p(s[i])
  }

  /** `filter(p).length` is the number of positions whose element satisfies `p`. */
  lemma {:induction false} FiltrarConta<T>(s: seq<T>, p: T -> bool)
    ensures |Filtrar(s, p)| == |IndicesQue(s, p)|
    decreases |s|
  {
    if |s| == 0 {
      assert IndicesQue(s, p) == {};
    } else {
      var n := |s| - 1;
      var ini := s[..n];
      assert s == ini + [s[n]];
      FiltrarConcat(ini, [s[n]], p);
      FiltrarConta(ini, p);
      assert [s[n]][1..] == [];
      if p(s[n]) {
        assert IndicesQue(s, p) == IndicesQue(ini, p) + {n};
      } else {
        assert IndicesQue(s, p) == IndicesQue(ini, p);
      }
    }
  }
}
