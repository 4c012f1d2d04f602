/**
  What the count rule of the batch lookup means (`CountCheck`): it compares
  the number of matched stored products with the number of requested ids.
  It agrees with the set rule when neither side repeats an id; a repeated
  request id against uniquely keyed data always fails; repeated stored ids
  can let a request with an unknown id through.
*/
module CountRule {
  import opened ProductApi

  /** No two stored products share an id. */
  predicate UniqueIds(ps: seq<Product>)
  {
    forall i, j | 0 <= i < j < |ps| :: ps[i].id != ps[j].id
  }

  /** The request lists no id twice. */
  predicate Distinct(ids: seq<string>)
  {
    forall i, j | 0 <= i < j < |ids| :: ids[i] != ids[j]
  }

  lemma {:induction false} UniqueIdsCard(ps: seq<Product>)
    requires UniqueIds(ps)
    ensures |IdsOf(ps)| == |ps|
  {
    if ps != [] {
      var t := ps[1..];
      assert UniqueIds(t) by {
        forall i, j | 0 <= i < j < |t| ensures t[i].id != t[j].id {
          assert t[i] == ps[i + 1] && t[j] == ps[j + 1];
        }
      }
      UniqueIdsCard(t);
      assert IdsOf(ps) == {ps[0].id} + IdsOf(t) by {
        assert forall p | p in ps :: p == ps[0] || p in t;
        assert forall p | p in t :: p in ps;
      }
      assert ps[0].id !in IdsOf(t) by {
        forall p | p in t ensures p.id != ps[0].id {
          var j :| 0 <= j < |t| && t[j] == p;
          assert ps[j + 1] == p;
        }
      }
    }
  }

  /** `set(ids)` has at most as many elements as `ids`, and as many exactly when no id repeats. */
  lemma {:induction false} ToSetCard(ids: seq<string>)
    ensures |ToSet(ids)| <= |ids|
    ensures |ToSet(ids)| == |ids| <==> Distinct(ids)
  {
    if ids != [] {
      var t := ids[1..];
      ToSetCard(t);
      assert ToSet(ids) == {ids[0]} + ToSet(t) by {
        assert forall x | x in ids :: x == ids[0] || x in t;
        assert forall x | x in t :: x in ids;
      }
      if ids[0] in t {
        var j :| 0 <= j < |t| && t[j] == ids[0];
        assert ids[0] == ids[j + 1];
        assert !Distinct(ids);
      } else if Distinct(t) {
        assert Distinct(ids) by {
          forall i, j | 0 <= i < j < |ids| ensures ids[i] != ids[j] {
            if i == 0 {
              assert ids[j] == t[j - 1];
            } else {
              assert ids[i] == t[i - 1] && ids[j] == t[j - 1];
            }
          }
        }
      } else {
        var i, j :| 0 <= i < j < |t| && t[i] == t[j];
        assert ids[i + 1] == ids[j + 1];
      }
    }
  }

  /** Dropping the first product keeps the ids unique. */
  lemma TailUniqueIds(ps: seq<Product>)
    requires ps != [] && UniqueIds(ps)
    ensures UniqueIds(ps[1..])
  {
  }

  /** A product whose id the rest does not use can be put in front. */
  lemma ConsUniqueIds(p: Product, t: seq<Product>)
    requires UniqueIds(t) && p.id !in IdsOf(t)
    ensures UniqueIds([p] + t)
  {
  }

  /** The filter of uniquely keyed data is uniquely keyed. */
  lemma {:induction false} FilterKeepsUniqueIds(ps: seq<Product>, ids: seq<string>)
    requires UniqueIds(ps)
    ensures UniqueIds(FilterByIds(ps, ids))
  {
    if ps != [] {
      var t := ps[1..];
      TailUniqueIds(ps);
      FilterKeepsUniqueIds(t, ids);
      var rest := FilterByIds(t, ids);
      if ps[0].id in ids {
        assert ps[0].id !in IdsOf(rest) by {
          forall q | q in rest ensures q.id != ps[0].id {
            var k :| 0 <= k < |t| && t[k] == q;
            assert ps[k + 1] == q;
          }
        }
        ConsUniqueIds(ps[0], rest);
      } else {
        assert FilterByIds(ps, ids) == rest;
      }
    }
  }

  /** Intersecting with another set does not add elements. */
  lemma IntersectionCard(a: set<string>, b: set<string>)
    ensures |a * b| <= |a|
  {
    assert a == (a * b) + (a - b);
    assert (a * b) * (a - b) == {};
  }

  /** A subset with as many elements as its superset is the whole superset. */
  lemma SubsetSameCard(a: set<string>, b: set<string>)
    requires a <= b && |a| == |b|
    ensures a == b
  {
    var d := b - a;
    assert b == a + d;
    assert a * d == {};
    assert |b| == |a| + |d|;
    assert d == {};
  }

  /** The number of stored products the batch filter keeps, for uniquely keyed data. */
  lemma FilterCard(ps: seq<Product>, ids: seq<string>)
    requires UniqueIds(ps)
    ensures |FilterByIds(ps, ids)| == |ToSet(ids) * IdsOf(ps)|
  {
    FilterKeepsUniqueIds(ps, ids);
    UniqueIdsCard(FilterByIds(ps, ids));
    IdsOfFilter(ps, ids);
  }

  /** With no id repeated on either side, the count rule is the set rule. */
  lemma CountRuleIsSetRule(ps: seq<Product>, ids: seq<string>)
    requires UniqueIds(ps) && Distinct(ids)
    ensures CountCheck(ps, ids) == SetCheck(ps, ids)
    ensures CountCheck(ps, ids).Ok? <==> ToSet(ids) <= IdsOf(ps)
  {
    FilterCard(ps, ids);
    ToSetCard(ids);
    var want := ToSet(ids);
    var found := want * IdsOf(ps);
    if |FilterByIds(ps, ids)| == |ids| {
      SubsetSameCard(found, want);
    } else {
      assert found != want;
    }
    assert want <= IdsOf(ps) <==> forall x | x in ids :: x in IdsOf(ps);
  }

  /**
    Against uniquely keyed data, a request that repeats an id always fails
    with 404; it reports only the requested ids that are not stored, so the
    reported set is empty when every requested id is stored.
  */
  lemma RepeatedRequestFails(ps: seq<Product>, ids: seq<string>)
    requires UniqueIds(ps) && !Distinct(ids)
    ensures CountCheck(ps, ids) == Err(NotFound(MissingIds(ToSet(ids) - IdsOf(ps))))
    ensures ToSet(ids) <= IdsOf(ps) ==> CountCheck(ps, ids) == Err(NotFound(MissingIds({})))
  {
    FilterCard(ps, ids);
    ToSetCard(ids);
    IntersectionCard(ToSet(ids), IdsOf(ps));
    if ToSet(ids) <= IdsOf(ps) {
      assert ToSet(ids) - IdsOf(ps) == {};
    }
  }

  /** A request that repeats an id: `["1", "1"]` against one stored product "1". */
  lemma RepeatedRequestIdExample(p: Product)
    requires p.id == "1"
    ensures CountCheck([p], ["1", "1"]) == Err(NotFound(MissingIds({})))
    ensures SetCheck([p], ["1", "1"]) == Ok(ProductList([p]))
  {
    assert UniqueIds([p]);
    assert !Distinct(["1", "1"]) by {
      assert ["1", "1"][0] == ["1", "1"][1];
    }
    assert ToSet(["1", "1"]) == {"1"};
    assert IdsOf([p]) == {"1"};
    RepeatedRequestFails([p], ["1", "1"]);
    assert FilterByIds([p], ["1", "1"]) == [p] by {
      assert [p][1..] == [];
    }
  }

  /**
    Two stored products with id "1" make the request `["1", "2"]` succeed,
    although no stored product has id "2".
  */
  lemma StoredDuplicatesMaskMissingId(a: Product, b: Product)
    requires a.id == "1" && b.id == "1"
    ensures "2" !in IdsOf([a, b])
    ensures CountCheck([a, b], ["1", "2"]) == Ok(ProductList([a, b]))
    ensures SetCheck([a, b], ["1", "2"]) == Err(NotFound(MissingIds({"2"})))
  {
    var ps := [a, b];
    assert ps[1..] == [b] && ps[1..][1..] == [];
    assert FilterByIds(ps, ["1", "2"]) == ps;
    assert IdsOf(ps) == {"1"};
    assert ToSet(["1", "2"]) == {"1", "2"};
    assert NotFoundIds(["1", "2"], ps) == {"2"};
  }
}
