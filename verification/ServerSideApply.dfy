// Forced server-side apply by the one field manager "ampulla", as applyOwned and the status
// write use it. An object is a map from leaf field paths to values and the managers owning them.

module ServerSideApply {
  datatype Manager = Ampulla | Foreign(name: string)

  datatype Field<V> = Field(value: V, owners: set<Manager>)

  // What a forced apply of config leaves. A field that is sent takes the sent value; whoever
  // owned it with that very value keeps co-owning it. A field that is not sent loses ampulla as
  // an owner, and goes away if ampulla was its only one.
  function Apply<P, V(==)>(o: map<P, Field<V>>, config: map<P, V>): map<P, Field<V>> {
    map p | p in o.Keys + config.Keys && (p in config || o[p].owners != {Ampulla}) ::
      if p !in config then Field(o[p].value, o[p].owners - {Ampulla})
      else Field(config[p], {Ampulla} + if p in o && o[p].value == config[p] then o[p].owners else {})
  }

  function ApplyAll<P, V(==)>(o: map<P, Field<V>>, configs: seq<map<P, V>>): map<P, Field<V>> {
    if configs == [] then o
    else Apply(ApplyAll(o, configs[..|configs| - 1]), configs[|configs| - 1])
  }

  // The part of an object that is there without ampulla.
  function Others<P, V>(o: map<P, Field<V>>): map<P, Field<V>> {
    map p | p in o && o[p].owners != {Ampulla} :: Field(o[p].value, o[p].owners - {Ampulla})
  }

  predicate OnlyAmpulla<P, V>(o: map<P, Field<V>>) {
    forall p :: p in o ==> o[p].owners == {Ampulla}
  }

  // An object that ampulla alone wrote, with exactly these fields.
  function Owned<P, V>(config: map<P, V>): map<P, Field<V>> {
    map p | p in config :: Field(config[p], {Ampulla})
  }

  predicate SamePath<P, V(==)>(l: map<P, Field<V>>, r: map<P, Field<V>>, p: P) {
    (p in l <==> p in r) && (p in l ==> l[p] == r[p])
  }

  lemma SamePaths<P(!new), V>(l: map<P, Field<V>>, r: map<P, Field<V>>)
    ensures (forall p :: SamePath(l, r, p)) <==> l == r
  {
    if forall p :: SamePath(l, r, p) {
      assert forall p :: SamePath(l, r, p) ==> (p in l <==> p in r);
      assert l.Keys == r.Keys;
      forall p | p in l
        ensures l[p] == r[p]
      {
        assert SamePath(l, r, p);
      }
    }
  }

  lemma ApplyIdempotent<P(!new), V>(o: map<P, Field<V>>, config: map<P, V>)
    ensures Apply(Apply(o, config), config) == Apply(o, config)
  {
    var once := Apply(o, config);
    var twice := Apply(once, config);
    forall p
      ensures SamePath(twice, once, p)
    {
      if p in config {
        assert {Ampulla} + once[p].owners == once[p].owners;
      } else if p in once {
        assert once[p].owners - {Ampulla} == once[p].owners;
      }
    }
    SamePaths(twice, once);
  }

  // Whatever ampulla applied before shows in the result only through what it did to others'
  // fields.
  lemma ApplySeesOnlyOthers<P(!new), V>(o: map<P, Field<V>>, config: map<P, V>)
    ensures Apply(o, config) == Apply(Others(o), config)
  {
    var l, r := Apply(o, config), Apply(Others(o), config);
    assert l.Keys == r.Keys;
    forall p | p in l
      ensures l[p] == r[p]
    {
      if p in config && p in Others(o) {
        assert {Ampulla} + o[p].owners == {Ampulla} + (o[p].owners - {Ampulla});
      }
    }
  }

  lemma ApplyOwned<P(!new), V>(o: map<P, Field<V>>, config: map<P, V>)
    requires OnlyAmpulla(o)
    ensures Apply(o, config) == Owned(config)
    ensures OnlyAmpulla(Owned(config))
  {
    forall p
      ensures SamePath(Apply(o, config), Owned(config), p)
    {
    }
    SamePaths(Apply(o, config), Owned(config));
  }

  // Sending config takes a foreign field away from its owners.
  predicate Displaces<P, V(==)>(config: map<P, V>, p: P, f: Field<V>) {
    p in config && (config[p] != f.value || f.owners == {})
  }

  predicate EverDisplaced<P, V(==)>(configs: seq<map<P, V>>, p: P, f: Field<V>) {
    exists i :: 0 <= i < |configs| && Displaces(configs[i], p, f)
  }

  function Surviving<P, V(==)>(o: map<P, Field<V>>, configs: seq<map<P, V>>): map<P, Field<V>> {
    map p | p in Others(o) && !EverDisplaced(configs, p, Others(o)[p]) :: Others(o)[p]
  }

  lemma OthersAfterApply<P(!new), V>(o: map<P, Field<V>>, config: map<P, V>)
    ensures Others(Apply(o, config)) ==
            map p | p in Others(o) && !Displaces(config, p, Others(o)[p]) :: Others(o)[p]
  {
    var l := Others(Apply(o, config));
    var r := map p | p in Others(o) && !Displaces(config, p, Others(o)[p]) :: Others(o)[p];
    forall p
      ensures p in l <==> p in r
      ensures p in l ==> l[p] == r[p]
    {
      if p in config {
        var owners := if p in o && o[p].value == config[p] then o[p].owners else {};
        assert Apply(o, config)[p] == Field(config[p], {Ampulla} + owners);
        assert ({Ampulla} + owners) - {Ampulla} == owners - {Ampulla};
        assert {Ampulla} + owners == {Ampulla} <==> owners - {Ampulla} == {} by {
          assert {Ampulla} + owners == {Ampulla} + (owners - {Ampulla});
        }
      } else if p in o && o[p].owners != {Ampulla} {
        assert o[p].owners - {Ampulla} != {Ampulla};
        assert (o[p].owners - {Ampulla}) - {Ampulla} == o[p].owners - {Ampulla};
      }
    }
  }

  lemma {:induction false} OthersAfterHistory<P(!new), V>(o: map<P, Field<V>>, configs: seq<map<P, V>>)
    ensures Others(ApplyAll(o, configs)) == Surviving(o, configs)
  {
    if configs == [] {
      assert Surviving(o, configs) == Others(o);
    } else {
      var init, last := configs[..|configs| - 1], configs[|configs| - 1];
      OthersAfterHistory(o, init);
      OthersAfterApply(ApplyAll(o, init), last);
      forall p | p in Others(o)
        ensures EverDisplaced(configs, p, Others(o)[p]) <==>
                EverDisplaced(init, p, Others(o)[p]) || Displaces(last, p, Others(o)[p])
      {
        var f := Others(o)[p];
        if EverDisplaced(init, p, f) {
          var i :| 0 <= i < |init| && Displaces(init[i], p, f);
          assert Displaces(configs[i], p, f);
        }
        if Displaces(last, p, f) {
          assert Displaces(configs[|configs| - 1], p, f);
        }
        if EverDisplaced(configs, p, f) {
          var i :| 0 <= i < |configs| && Displaces(configs[i], p, f);
          assert i == |configs| - 1 || Displaces(init[i], p, f);
        }
      }
      assert Others(ApplyAll(o, configs)) == Surviving(o, configs);
    }
  }

  // Only the last configuration matters exactly when every foreign field that an earlier one
  // took away is one the last would have taken away as well.
  lemma HistoryIndependentIff<P(!new), V>(o: map<P, Field<V>>, configs: seq<map<P, V>>, last: map<P, V>)
    ensures ApplyAll(o, configs + [last]) == Apply(o, last) <==>
            forall p :: KeptPath(o, configs, last, p)
  {
    var all := configs + [last];
    assert all[..|all| - 1] == configs;
    var before := ApplyAll(o, configs);
    OthersAfterHistory(o, configs);
    ApplySeesOnlyOthers(before, last);
    ApplySeesOnlyOthers(o, last);
    var l, r := Apply(Surviving(o, configs), last), Apply(Others(o), last);
    forall p
      ensures SamePath(l, r, p) <==> KeptPath(o, configs, last, p)
    {
      SamePathIff(o, configs, last, p);
    }
    SamePaths(l, r);
    assert (forall p :: SamePath(l, r, p)) <==> (forall p :: KeptPath(o, configs, last, p));
  }

  // The one way the past could show at p is ruled out.
  predicate KeptPath<P(!new), V(==)>(o: map<P, Field<V>>, configs: seq<map<P, V>>, last: map<P, V>, p: P) {
    p in Others(o) && EverDisplaced(configs, p, Others(o)[p]) ==> Displaces(last, p, Others(o)[p])
  }

  lemma SamePathIff<P(!new), V>(o: map<P, Field<V>>, configs: seq<map<P, V>>, last: map<P, V>, p: P)
    ensures var l, r := Apply(Surviving(o, configs), last), Apply(Others(o), last);
            SamePath(l, r, p) <==> KeptPath(o, configs, last, p)
  {
    var kept := Surviving(o, configs);
    if p in Others(o) && p !in kept {
      var f := Others(o)[p];
      assert Ampulla !in f.owners;
      if p in last && last[p] == f.value && f.owners != {} {
        var m :| m in f.owners;
        assert m in Apply(Others(o), last)[p].owners && m != Ampulla;
        assert Apply(kept, last)[p].owners == {Ampulla};
      } else if p in last && last[p] == f.value {
        assert Apply(Others(o), last)[p].owners == {Ampulla};
      }
    }
  }

  // On an object nobody else writes, it always does: the fields left are the ones last asked for.
  lemma HistoryIndependent<P(!new), V>(o: map<P, Field<V>>, configs: seq<map<P, V>>, last: map<P, V>)
    requires OnlyAmpulla(o)
    ensures ApplyAll(o, configs + [last]) == Apply(o, last) == Owned(last)
  {
    HistoryIndependentIff(o, configs, last);
    ApplyOwned(o, last);
  }
}
