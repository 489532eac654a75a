/** Operator layers of any section, folded in order: what the fold allows, key by key. */
module ConfigLayers {
  import opened Basics
  import opened ConfigKeys

  /** Operator layers, outermost first. */
  function FoldAll<T>(fold: (T, T) -> T, base: T, layers: seq<T>): T {
    if layers == [] then base else fold(FoldAll(fold, base, layers[..|layers| - 1]), layers[|layers| - 1])
  }

  /** Whatever folding only tightens, a further layer at any place tightens. */
  lemma {:induction false} LayersTighten<T(!new)>(fold: (T, T) -> T, within: (T, T) -> bool, base: T,
                                                  before: seq<T>, x: T, after: seq<T>)
    requires forall p, q :: within(fold(p, q), p)
    requires forall p, q, r :: within(p, q) ==> within(fold(p, r), fold(q, r))
    ensures within(FoldAll(fold, base, before + [x] + after), FoldAll(fold, base, before + after))
  {
    if after == [] {
      assert before + [x] + after == before + [x] && before + after == before;
      assert (before + [x])[..|before|] == before;
    } else {
      var front, last := after[..|after| - 1], after[|after| - 1];
      LayersTighten(fold, within, base, before, x, front);
      assert (before + [x] + after)[..|before + [x] + after| - 1] == before + [x] + front;
      assert (before + after)[..|before + after| - 1] == before + front;
    }
  }

  /** A fold allows what both of its layers allow, and silence allows everything. */
  ghost predicate Distributes<T(!new)>(fold: (T, T) -> T, silent: T, allows: T -> bool) {
    allows(silent) && forall a, b :: allows(fold(a, b)) <==> allows(a) && allows(b)
  }

  lemma {:induction false} AllowedByAll<T(!new)>(fold: (T, T) -> T, silent: T, layers: seq<T>, allows: T -> bool)
    requires Distributes(fold, silent, allows)
    ensures allows(FoldAll(fold, silent, layers)) <==> forall p :: p in layers ==> allows(p)
  {
    if layers != [] {
      AllowedByAll(fold, silent, layers[..|layers| - 1], allows);
      assert layers == layers[..|layers| - 1] + [layers[|layers| - 1]];
    }
  }

  // ---- lists that intersect ----

  predicate ListAllows(l: List, v: string) { l.Some? ==> v in l.value }

  ghost predicate IntersectKey<T(!new)>(fold: (T, T) -> T, silent: T, key: T -> List) {
    key(silent) == None && forall a, b :: key(fold(a, b)) == Intersect(key(a), key(b))
  }

  /** A value gets through exactly when it is known, the project (or the default) lists it, and no
      layer that speaks leaves it out. */
  lemma ListExactly<T(!new)>(fold: (T, T) -> T, silent: T, key: T -> List, layers: seq<T>,
                             order: seq<string>, def: seq<string>, project: List, v: string)
    requires IntersectKey(fold, silent, key)
    ensures v in ResolveList(order, def, project, key(FoldAll(fold, silent, layers))) <==>
      && v in order && v in (if project.Some? then project.value else def)
      && forall p :: p in layers ==> ListAllows(key(p), v)
  {
    var allows := (p: T) => ListAllows(key(p), v);
    forall a, b ensures allows(fold(a, b)) <==> allows(a) && allows(b) {
      assert key(fold(a, b)) == Intersect(key(a), key(b));
    }
    AllowedByAll(fold, silent, layers, allows);
  }

  // ---- numbers and durations ----

  predicate NumberAllows(o: Option<int>, n: int) { o.Some? ==> n <= o.value }

  ghost predicate LeastKey<T(!new)>(fold: (T, T) -> T, silent: T, key: T -> Option<int>) {
    key(silent) == None && forall a, b :: key(fold(a, b)) == Least(key(a), key(b))
  }

  /** A number reaches n exactly when the ceiling, the project (or the default) and every layer that
      speaks let it. */
  lemma NumberExactly<T(!new)>(fold: (T, T) -> T, silent: T, key: T -> Option<int>, layers: seq<T>,
                               def: int, ceiling: int, project: Option<int>, n: int)
    requires LeastKey(fold, silent, key) && 0 < n
    ensures n <= ResolveNumber(def, ceiling, project, key(FoldAll(fold, silent, layers))) <==>
      && n <= ceiling && n <= (if project.Some? then project.value else def)
      && forall p :: p in layers ==> NumberAllows(key(p), n)
  {
    var allows := (p: T) => NumberAllows(key(p), n);
    forall a, b ensures allows(fold(a, b)) <==> allows(a) && allows(b) {
      assert key(fold(a, b)) == Least(key(a), key(b));
    }
    AllowedByAll(fold, silent, layers, allows);
  }

  // ---- switches ----

  ghost predicate VetoKey<T(!new)>(fold: (T, T) -> T, silent: T, key: T -> Option<bool>) {
    key(silent) == None && forall a, b :: key(fold(a, b)) == Veto(key(a), key(b))
  }

  lemma VetoExactly<T(!new)>(fold: (T, T) -> T, silent: T, key: T -> Option<bool>, layers: seq<T>)
    requires VetoKey(fold, silent, key)
    ensures key(FoldAll(fold, silent, layers)) != Some(false) <==> forall p :: p in layers ==> key(p) != Some(false)
  {
    var allows := (p: T) => key(p) != Some(false);
    forall a, b ensures allows(fold(a, b)) <==> allows(a) && allows(b) {
      assert key(fold(a, b)) == Veto(key(a), key(b));
    }
    AllowedByAll(fold, silent, layers, allows);
  }

  ghost predicate StickyKey<T(!new)>(fold: (T, T) -> T, silent: T, key: T -> Option<bool>) {
    key(silent) == None && forall a, b :: key(fold(a, b)) == Sticky(key(a), key(b))
  }

  lemma StickyExactly<T(!new)>(fold: (T, T) -> T, silent: T, key: T -> Option<bool>, layers: seq<T>)
    requires StickyKey(fold, silent, key)
    ensures On(key(FoldAll(fold, silent, layers))) <==> exists p :: p in layers && On(key(p))
  {
    var allows := (p: T) => !On(key(p));
    forall a, b ensures allows(fold(a, b)) <==> allows(a) && allows(b) {
      assert key(fold(a, b)) == Sticky(key(a), key(b));
    }
    AllowedByAll(fold, silent, layers, allows);
  }

  // ---- choices ----

  predicate ExecAllows(o: Option<string>, rank: int) { o.Some? ==> rank <= ExecRank(o.value) }

  ghost predicate ExecKey<T(!new)>(fold: (T, T) -> T, silent: T, key: T -> Option<string>) {
    key(silent) == None && forall a, b :: key(fold(a, b)) == StricterExec(key(a), key(b))
  }

  lemma ExecExactly<T(!new)>(fold: (T, T) -> T, silent: T, key: T -> Option<string>, layers: seq<T>, rank: int)
    requires ExecKey(fold, silent, key)
    ensures ExecAllows(key(FoldAll(fold, silent, layers)), rank) <==>
        forall p :: p in layers ==> ExecAllows(key(p), rank)
  {
    var allows := (p: T) => ExecAllows(key(p), rank);
    forall a, b ensures allows(fold(a, b)) <==> allows(a) && allows(b) {
      assert key(fold(a, b)) == StricterExec(key(a), key(b));
    }
    AllowedByAll(fold, silent, layers, allows);
  }

  predicate DocsBelow(o: Option<string>, rank: int) { o.Some? ==> DocsRank(o.value) < rank }

  ghost predicate DocsKey<T(!new)>(fold: (T, T) -> T, silent: T, key: T -> Option<string>) {
    key(silent) == None && forall a, b :: key(fold(a, b)) == StricterDocs(key(a), key(b))
  }

  lemma DocsExactly<T(!new)>(fold: (T, T) -> T, silent: T, key: T -> Option<string>, layers: seq<T>, rank: int)
    requires DocsKey(fold, silent, key)
    ensures DocsBelow(key(FoldAll(fold, silent, layers)), rank) <==> forall p :: p in layers ==> DocsBelow(key(p), rank)
  {
    var allows := (p: T) => DocsBelow(key(p), rank);
    forall a, b ensures allows(fold(a, b)) <==> allows(a) && allows(b) {
      assert key(fold(a, b)) == StricterDocs(key(a), key(b));
    }
    AllowedByAll(fold, silent, layers, allows);
  }

  predicate FlatAllows(o: Option<string>, m: string) { o.None? || o.value == m }

  ghost predicate AgreedKey<T(!new)>(fold: (T, T) -> T, silent: T, none: string, key: T -> Option<string>) {
    key(silent) == None && forall a, b :: key(fold(a, b)) == Agreed(none, key(a), key(b))
  }

  lemma AgreedExactly<T(!new)>(fold: (T, T) -> T, silent: T, none: string, key: T -> Option<string>,
                               layers: seq<T>, m: string)
    requires AgreedKey(fold, silent, none, key) && m != none
    ensures FlatAllows(key(FoldAll(fold, silent, layers)), m) <==> forall p :: p in layers ==> FlatAllows(key(p), m)
  {
    var allows := (p: T) => FlatAllows(key(p), m);
    forall a, b ensures allows(fold(a, b)) <==> allows(a) && allows(b) {
      assert key(fold(a, b)) == Agreed(none, key(a), key(b));
    }
    AllowedByAll(fold, silent, layers, allows);
  }

  // ---- lists that add up ----

  ghost predicate UnionKey<T(!new)>(fold: (T, T) -> T, silent: T, key: T -> List) {
    key(silent) == None && forall a, b :: key(fold(a, b)) == Union(key(a), key(b))
  }

  lemma UnionExactly<T(!new)>(fold: (T, T) -> T, silent: T, key: T -> List, layers: seq<T>, v: string)
    requires UnionKey(fold, silent, key)
    ensures v in Items(key(FoldAll(fold, silent, layers))) <==> exists p :: p in layers && v in Items(key(p))
  {
    var allows := (p: T) => v !in Items(key(p));
    forall a, b ensures allows(fold(a, b)) <==> allows(a) && allows(b) {
      assert key(fold(a, b)) == Union(key(a), key(b));
    }
    AllowedByAll(fold, silent, layers, allows);
  }
}
