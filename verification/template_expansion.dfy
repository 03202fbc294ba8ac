/** Template expansion of the Python binding generator: each template parameter that names a
    family of types is replaced by every type of the family, and a specialisation expands to the
    cartesian product of its parameters' expansions, in itertools.product order. */
module TemplateExpansion {
  /** The families of types a template parameter may stand for. */
  const TemplateExpansionMap: map<string, seq<string>> := map[
    "TypeReal" := ["float", "double"],
    "TypePythonScalar" := ["int", "double"],
    "TypeFilterable" := ["unsigned char", "float", "double"],
    "TypeErodableDilatable" := ["unsigned char", "float", "double"],
    "TypeBaseImagePixel" := ["unsigned char", "vpRGBa"]
  ]

  /** The types one parameter expands to: its family, or the parameter alone when it names no
      family. */
  function Expansion(param: string): (r: seq<string>)
    ensures |r| > 0
    ensures r == [param] <==> param !in TemplateExpansionMap
    ensures forall k :: 0 <= k < |r| ==> r[k] !in TemplateExpansionMap
  {
    if param in TemplateExpansionMap then TemplateExpansionMap[param] else [param]
  }

  /** Expanding an expanded type again gives it back: no family contains a family name. */
  lemma ExpansionIdempotent(param: string, k: nat)
    requires k < |Expansion(param)|
    ensures Expansion(Expansion(param)[k]) == [Expansion(param)[k]]
  {
  }

  /** The expansion of every parameter of a specialisation, in order. */
  function Expansions(spec: seq<string>): (r: seq<seq<string>>)
    ensures |r| == |spec|
  {
    seq(|spec|, i requires 0 <= i < |spec| => Expansion(spec[i]))
  }

  /** Each x of xs put in front of each tuple of ts, with x varying slowest. */
  function PrependEach<T>(xs: seq<T>, ts: seq<seq<T>>): (r: seq<seq<T>>)
    ensures |r| == |xs| * |ts|
    decreases |xs|
  {
    if |xs| == 0 then []
    else seq(|ts|, k requires 0 <= k < |ts| => [xs[0]] + ts[k]) + PrependEach(xs[1..], ts)
  }

  /** The cartesian product of a list of lists, with the first position varying slowest, as
      itertools.product enumerates it; the product of no list is the single empty tuple. */
  function Product<T>(ls: seq<seq<T>>): (r: seq<seq<T>>)
    ensures |r| == ProductSize(ls)
    decreases |ls|
  {
    if |ls| == 0 then [[]] else PrependEach(ls[0], Product(ls[1..]))
  }

  /** The number of tuples of a product: the product of the list lengths. */
  function ProductSize<T>(ls: seq<seq<T>>): (r: nat)
    decreases |ls|
  {
    if |ls| == 0 then 1 else |ls[0]| * ProductSize(ls[1..])
  }

  /** The tuples of PrependEach are the tuples headed by an x of xs and followed by a tuple of ts. */
  lemma {:induction false} PrependEachMembers<T>(xs: seq<T>, ts: seq<seq<T>>, t: seq<T>)
    ensures t in PrependEach(xs, ts) <==> |t| > 0 && t[0] in xs && t[1..] in ts
    decreases |xs|
  {
    if |xs| > 0 {
      PrependEachMembers(xs[1..], ts, t);
      var front := seq(|ts|, k requires 0 <= k < |ts| => [xs[0]] + ts[k]);
      if t in front {
        var k :| 0 <= k < |ts| && front[k] == t;
        assert t[1..] == ts[k];
      }
      if |t| > 0 && t[0] == xs[0] && t[1..] in ts {
        var k :| 0 <= k < |ts| && ts[k] == t[1..];
        assert front[k] == t;
      }
      if |t| > 0 && t[0] in xs && t[0] != xs[0] {
        assert t[0] in xs[1..];
      }
    }
  }

  /** The tuples of a product are exactly the tuples with one entry per list, each entry taken
      from its list. */
  lemma {:induction false} ProductMembers<T>(ls: seq<seq<T>>, t: seq<T>)
    ensures t in Product(ls) <==> |t| == |ls| && forall i :: 0 <= i < |t| ==> t[i] in ls[i]
    decreases |ls|
  {
    if |ls| == 0 {
      assert Product(ls) == [[]];
    } else {
      PrependEachMembers(ls[0], Product(ls[1..]), t);
      if |t| > 0 {
        ProductMembers(ls[1..], t[1..]);
        if |t| == |ls| && forall i :: 0 <= i < |t| ==> t[i] in ls[i] {
          assert forall i :: 0 <= i < |t[1..]| ==> t[1..][i] in ls[1..][i] by {
            forall i | 0 <= i < |t[1..]| ensures t[1..][i] in ls[1..][i] {
              assert t[1..][i] == t[i + 1];
            }
          }
        }
        if t in Product(ls) {
          forall i | 0 <= i < |t| ensures t[i] in ls[i] {
            if i > 0 {
              assert t[i] == t[1..][i - 1];
            }
          }
        }
      }
    }
  }

  /** Tuple x·|ts| + j of PrependEach is x number x followed by tuple number j: the x vary
      slowest. */
  lemma {:induction false} PrependEachAt<T>(xs: seq<T>, ts: seq<seq<T>>, x: nat, j: nat)
    requires x < |xs| && j < |ts|
    ensures x * |ts| + j < |xs| * |ts|
    ensures PrependEach(xs, ts)[x * |ts| + j] == [xs[x]] + ts[j]
    decreases x
  {
    assert |xs| * |ts| == |ts| + (|xs| - 1) * |ts|;
    if x > 0 {
      PrependEachAt(xs[1..], ts, x - 1, j);
      assert x * |ts| == |ts| + (x - 1) * |ts|;
      assert xs[1..][x - 1] == xs[x];
    }
  }

  /** The enumeration order of itertools.product: with P the size of the product of the other
      lists, tuple x·P + j of the product is entry x of the first list followed by tuple j of the
      product of the others, so the first position varies slowest and the last fastest. */
  lemma ProductAt<T>(ls: seq<seq<T>>, x: nat, j: nat)
    requires |ls| > 0 && x < |ls[0]| && j < ProductSize(ls[1..])
    ensures x * ProductSize(ls[1..]) + j < ProductSize(ls)
    ensures Product(ls)[x * ProductSize(ls[1..]) + j] == [ls[0][x]] + Product(ls[1..])[j]
  {
    PrependEachAt(ls[0], Product(ls[1..]), x, j);
  }

  /** The expansions of the specialisations, in the order given. */
  function ExpandAll(specs: seq<seq<string>>): seq<seq<string>>
    decreases |specs|
  {
    if |specs| == 0 then []
    else ExpandAll(specs[..|specs| - 1]) + Product(Expansions(specs[|specs| - 1]))
  }

  /** expand_templates: each specialisation's parameters are expanded one by one, and the
      cartesian product of the expansions is appended to the result. */
  method ExpandTemplates(specializations: seq<seq<string>>) returns (result: seq<seq<string>>)
    ensures result == ExpandAll(specializations)
  {
    result := [];
    for s := 0 to |specializations|
      invariant result == ExpandAll(specializations[..s])
    {
      var spec := specializations[s];
      var expandedParams: seq<seq<string>> := [];
      for p := 0 to |spec|
        invariant expandedParams == Expansions(spec[..p])
      {
        var param := spec[p];
        assert spec[..p + 1] == spec[..p] + [param];
        if param in TemplateExpansionMap {
          expandedParams := expandedParams + [TemplateExpansionMap[param]];
        } else {
          expandedParams := expandedParams + [[param]];
        }
      }
      assert spec[..|spec|] == spec;
      assert specializations[..s + 1][..s] == specializations[..s];
      result := result + Product(expandedParams);
    }
    assert specializations[..|specializations|] == specializations;
  }

  /** Expanding a concatenation expands each part in turn: specialisations are expanded in
      input order. */
  lemma {:induction false} ExpandAllAppend(a: seq<seq<string>>, b: seq<seq<string>>)
    ensures ExpandAll(a + b) == ExpandAll(a) + ExpandAll(b)
    decreases |b|
  {
    if |b| > 0 {
      var b' := b[..|b| - 1];
      assert (a + b)[..|a + b| - 1] == a + b';
      ExpandAllAppend(a, b');
    } else {
      assert a + b == a;
    }
  }

  /** The number of tuples one specialisation expands to: the product of its parameters'
      expansion sizes. */
  function SpecSize(spec: seq<string>): nat
  {
    ProductSize(Expansions(spec))
  }

  /** The sum of SpecSize over the specialisations. */
  function TotalSize(specs: seq<seq<string>>): nat
    decreases |specs|
  {
    if |specs| == 0 then 0 else TotalSize(specs[..|specs| - 1]) + SpecSize(specs[|specs| - 1])
  }

  /** The result holds, for every specialisation, the product of its expansion sizes many
      tuples. */
  lemma {:induction false} ExpandAllLength(specs: seq<seq<string>>)
    ensures |ExpandAll(specs)| == TotalSize(specs)
    decreases |specs|
  {
    if |specs| > 0 {
      ExpandAllLength(specs[..|specs| - 1]);
    }
  }

  /** The tuples one specialisation expands to are exactly the tuples as long as the
      specialisation whose every entry is an expansion of the parameter at the same position. */
  lemma SpecTuples(spec: seq<string>, t: seq<string>)
    ensures t in Product(Expansions(spec)) <==>
      |t| == |spec| && forall j :: 0 <= j < |t| ==> t[j] in Expansion(spec[j])
  {
    ProductMembers(Expansions(spec), t);
  }

  /** A tuple is in the result exactly when one of the specialisations expands to it. */
  lemma {:induction false} ExpandAllMembers(specs: seq<seq<string>>, t: seq<string>)
    ensures t in ExpandAll(specs) <==>
      exists i :: 0 <= i < |specs| && t in Product(Expansions(specs[i]))
    decreases |specs|
  {
    if |specs| > 0 {
      var init, last := specs[..|specs| - 1], specs[|specs| - 1];
      ExpandAllMembers(init, t);
      assert ExpandAll(specs) == ExpandAll(init) + Product(Expansions(last));
      if t in ExpandAll(init) {
        var i :| 0 <= i < |init| && t in Product(Expansions(init[i]));
        assert specs[i] == init[i];
      } else if t !in Product(Expansions(last)) {
        forall i | 0 <= i < |specs| ensures t !in Product(Expansions(specs[i])) {
          if i < |init| {
            assert specs[i] == init[i];
          }
        }
      }
    }
  }
}
