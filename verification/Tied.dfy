/** Parameters shared between layers: finding them, and which slice's optimizer holds them.

    A slice is the list of the names its parameters are reachable under, with the parameter each
    name refers to; a tied parameter has several names. */
module Tied {
  import opened Network
  import opened Sequences

  datatype Named = Named(name: string, param: Param)

  /** One shared parameter: the slices that use it, with the names they use. */
  datatype Group = Group(param: Param, members: map<nat, seq<string>>)

  /** The names `p` has in one slice, in order. */
  function NamesOf(slice: seq<Named>, p: Param): seq<string> {
    if slice == [] then []
    else NamesOf(slice[..|slice| - 1], p) + if slice[|slice| - 1].param == p then [slice[|slice| - 1].name] else []
  }

  lemma {:induction false} NamesOfMember(slice: seq<Named>, p: Param, name: string)
    ensures name in NamesOf(slice, p) <==> exists j :: 0 <= j < |slice| && slice[j] == Named(name, p)
  {
    if slice != [] {
      var init, last := slice[..|slice| - 1], slice[|slice| - 1];
      NamesOfMember(init, p, name);
      assert slice == init + [last];
      if name in NamesOf(init, p) {
        var j :| 0 <= j < |init| && init[j] == Named(name, p);
        assert slice[j] == Named(name, p);
      }
      if exists j :: 0 <= j < |slice| && slice[j] == Named(name, p) {
        var j :| 0 <= j < |slice| && slice[j] == Named(name, p);
        if j < |init| { assert init[j] == Named(name, p); }
      }
    }
  }

  /** Every use of `p` in the first `k` slices, in order. */
  function Uses(slices: seq<seq<Named>>, p: Param, k: nat): seq<(nat, string)>
    requires k <= |slices|
  {
    if k == 0 then [] else Uses(slices, p, k - 1) + Tagged(k - 1, NamesOf(slices[k - 1], p))
  }

  /** Uses grouped by slice. */
  function Members(uses: seq<(nat, string)>): map<nat, seq<string>> {
    if uses == [] then map[]
    else
      var m := Members(uses[..|uses| - 1]);
      var (i, name) := uses[|uses| - 1];
      m[i := (if i in m then m[i] else []) + [name]]
  }

  lemma MembersSnoc(uses: seq<(nat, string)>, i: nat, name: string)
    ensures var m := Members(uses); Members(uses + [(i, name)]) == m[i := (if i in m then m[i] else []) + [name]]
  {
    assert (uses + [(i, name)])[..|uses|] == uses;
  }

  lemma {:induction false} MembersTagged(uses: seq<(nat, string)>, i: nat, names: seq<string>)
    requires i !in Members(uses)
    ensures Members(uses + Tagged(i, names)) == if names == [] then Members(uses) else Members(uses)[i := names]
  {
    hide NamesOf;
    if names == [] {
      assert uses + Tagged(i, names) == uses;
    } else {
      var init, name := names[..|names| - 1], names[|names| - 1];
      TaggedInit(uses, i, names);
      hide Members, Tagged;
      MembersTagged(uses, i, init);
      MembersSnoc(uses + Tagged(i, init), i, name);
    }
  }

  lemma TaggedInit(uses: seq<(nat, string)>, i: nat, names: seq<string>)
    requires names != []
    ensures var init, name := names[..|names| - 1], names[|names| - 1];
      && uses + Tagged(i, names) == (uses + Tagged(i, init)) + [(i, name)] && init + [name] == names
  {
  }

  /** A group's members are exactly the slices that use the parameter, each with all its names. */
  lemma {:induction false} MembersAre(slices: seq<seq<Named>>, p: Param, k: nat)
    requires k <= |slices|
    ensures forall i: nat :: i in Members(Uses(slices, p, k)) <==> i < k && NamesOf(slices[i], p) != []
    ensures forall i: nat | i in Members(Uses(slices, p, k)) :: Members(Uses(slices, p, k))[i] == NamesOf(slices[i], p)
  {
    if k > 0 {
      MembersAre(slices, p, k - 1);
      hide NamesOf;
      MembersTagged(Uses(slices, p, k - 1), k - 1, NamesOf(slices[k - 1], p));
    }
  }

  /** What `by_param` holds after some of the names. */
  ghost predicate Collected(byParam: map<Param, seq<(nat, string)>>, p: Param, uses: seq<(nat, string)>) {
    if uses == [] then p !in byParam else p in byParam && byParam[p] == uses
  }

  lemma NothingTagged(uses: seq<(nat, string)>, i: nat, slice: seq<Named>, p: Param)
    ensures uses + Tagged(i, NamesOf(slice[..0], p)) == uses
  {
  }

  lemma TaggedSnoc(uses: seq<(nat, string)>, i: nat, slice: seq<Named>, j: nat, p: Param)
    requires j < |slice|
    ensures uses + Tagged(i, NamesOf(slice[..j + 1], p)) ==
            (uses + Tagged(i, NamesOf(slice[..j], p))) + if slice[j].param == p then [(i, slice[j].name)] else []
  {
    assert slice[..j + 1][..j] == slice[..j];
  }

  /** `find_tied_parameters`, first part: the uses of every parameter, and the order in which
      parameters were met. */
  method CollectUses(slices: seq<seq<Named>>) returns (byParam: map<Param, seq<(nat, string)>>, order: seq<Param>)
    ensures forall p :: Collected(byParam, p, Uses(slices, p, |slices|))
    ensures (forall p :: p in order <==> p in byParam) && forall a, b | 0 <= a < b < |order| :: order[a] != order[b]
  {
    hide NamesOf, Tagged;
    byParam, order := map[], [];
    for i := 0 to |slices|
      invariant forall p :: Collected(byParam, p, Uses(slices, p, i))
      invariant (forall p :: p in order <==> p in byParam) && forall a, b | 0 <= a < b < |order| :: order[a] != order[b]
    {
      var slice := slices[i];
      forall p ensures Collected(byParam, p, Uses(slices, p, i) + Tagged(i, NamesOf(slice[..0], p))) {
        NothingTagged(Uses(slices, p, i), i, slice, p);
      }
      for j := 0 to |slice|
        invariant forall p :: Collected(byParam, p, Uses(slices, p, i) + Tagged(i, NamesOf(slice[..j], p)))
        invariant (forall p :: p in order <==> p in byParam)
        invariant forall a, b | 0 <= a < b < |order| :: order[a] != order[b]
      {
        var q := slice[j].param;
        ghost var before := byParam;
        if q !in byParam { order := order + [q]; }
        byParam := byParam[q := (if q in byParam then byParam[q] else []) + [(i, slice[j].name)]];
        forall p ensures Collected(byParam, p, Uses(slices, p, i) + Tagged(i, NamesOf(slice[..j + 1], p))) {
          assert Collected(before, p, Uses(slices, p, i) + Tagged(i, NamesOf(slice[..j], p)));
          TaggedSnoc(Uses(slices, p, i), i, slice, j, p);
        }
      }
      assert slice[..|slice|] == slice;
    }
  }

  /** The group of a parameter. */
  function GroupOf(slices: seq<seq<Named>>, p: Param): Group {
    Group(p, Members(Uses(slices, p, |slices|)))
  }

  /** `find_tied_parameters`: one group for every parameter reachable under more than one name, and
      no others. */
  method FindTied(slices: seq<seq<Named>>) returns (groups: seq<Group>)
    ensures forall g | g in groups :: g == GroupOf(slices, g.param) && |Uses(slices, g.param, |slices|)| >= 2
    ensures forall p | |Uses(slices, p, |slices|)| >= 2 :: GroupOf(slices, p) in groups
    ensures forall a, b | 0 <= a < b < |groups| :: groups[a].param != groups[b].param
  {
    hide Uses, Members, NamesOf;
    var byParam, order := CollectUses(slices);
    groups := [];
    for k := 0 to |order|
      invariant forall g | g in groups ::
          g == GroupOf(slices, g.param) && |Uses(slices, g.param, |slices|)| >= 2 && g.param in order[..k]
      invariant forall j | 0 <= j < k && |Uses(slices, order[j], |slices|)| >= 2 :: GroupOf(slices, order[j]) in groups
      invariant forall a, b | 0 <= a < b < |groups| :: groups[a].param != groups[b].param
    {
      assert Collected(byParam, order[k], Uses(slices, order[k], |slices|));
      var uses := byParam[order[k]];
      assert order[..k + 1] == order[..k] + [order[k]];
      if |uses| >= 2 {
        var members := GroupMembers(uses);
        groups := groups + [Group(order[k], members)];
      }
    }
    forall p | |Uses(slices, p, |slices|)| >= 2 ensures GroupOf(slices, p) in groups {
      assert Collected(byParam, p, Uses(slices, p, |slices|));
    }
  }

  /** The members of one group. */
  method GroupMembers(uses: seq<(nat, string)>) returns (members: map<nat, seq<string>>)
    ensures members == Members(uses)
  {
    members := map[];
    for k := 0 to |uses|
      invariant members == Members(uses[..k])
    {
      var (i, name) := uses[k];
      members := members[i := (if i in members then members[i] else []) + [name]];
      assert uses[..k + 1][..k] == uses[..k];
    }
    assert uses[..|uses|] == uses;
  }

  // ── who steps what ───────────────────────────────────────────────────────────

  ghost function Min(s: set<nat>): (m: nat)
    requires s != {}
    ensures m in s && forall x | x in s :: m <= x
  {
    var x :| x in s;
    assert s == (s - {x}) + {x};
    if s - {x} == {} then x
    else
      var m := Min(s - {x});
      if x < m then x else m
  }

  /** `non_owned_names`: the names slice `i` uses tied parameters under that it does not own. */
  ghost function NonOwned(i: nat, groups: seq<Group>): iset<string> {
    iset g, name | g in groups && i in g.members && i != Min(g.members.Keys) && name in g.members[i] :: name
  }

  /** `optimizer_parameters`: the trainable ones (all if none are) that have a name not excluded. */
  ghost function OptimizerParams(slice: seq<Named>, trainable: set<Param>, exclude: iset<string>): set<Param> {
    var params := set n | n in slice && n.name !in exclude :: n.param;
    if params * trainable != {} then params * trainable else params
  }

  /** No slice uses one name twice. */
  ghost predicate DistinctNames(slice: seq<Named>) {
    forall a, b | 0 <= a < b < |slice| :: slice[a].name != slice[b].name
  }

  function ParamsIn(slice: seq<Named>): set<Param> {
    set n | n in slice :: n.param
  }

  ghost predicate Slices(net: Net, slices: seq<seq<Named>>) {
    net.n == |slices| && forall i: nat | i < net.n :: net.uses(i) == ParamsIn(slices[i]) && DistinctNames(slices[i])
  }

  lemma NamesOfUser(slice: seq<Named>, p: Param)
    ensures NamesOf(slice, p) != [] <==> p in ParamsIn(slice)
  {
    if p in ParamsIn(slice) {
      var n :| n in slice && n.param == p;
      NamesOfMember(slice, p, n.name);
    }
    if NamesOf(slice, p) != [] {
      NamesOfMember(slice, p, NamesOf(slice, p)[0]);
    }
  }

  /** `TiedGroup.owner` is the lowest slice that uses the parameter. */
  lemma GroupOwner(net: Net, slices: seq<seq<Named>>, p: Param, i: nat)
    requires Slices(net, slices) && i < net.n && p in net.uses(i)
    ensures i in GroupOf(slices, p).members && Min(GroupOf(slices, p).members.Keys) == Owner(net, p)
  {
    var m := GroupOf(slices, p).members;
    MembersAre(slices, p, |slices|);
    NamesOfUser(slices[i], p);
    forall j: nat | j < net.n ensures j in m <==> p in net.uses(j) { NamesOfUser(slices[j], p); }
    var o := Owner(net, p);
    assert o in m.Keys && Min(m.Keys) in m;
  }

  /** One slice's optimizer holds a name of `p` just if the slice owns it. */
  lemma Excluded(net: Net, slices: seq<seq<Named>>, groups: seq<Group>, i: nat, n: Named)
    requires Slices(net, slices) && i < net.n && n in slices[i]
    requires forall g | g in groups :: g == GroupOf(slices, g.param)
    requires forall p | |Uses(slices, p, |slices|)| >= 2 :: GroupOf(slices, p) in groups
    ensures n.name in NonOwned(i, groups) <==> Owner(net, n.param) != i
  {
    var p, o := n.param, Owner(net, n.param);
    GroupOwner(net, slices, p, i);
    MembersAre(slices, p, |slices|);
    NamesOfMember(slices[i], p, n.name);
    if o != i {
      TwoUses(net, slices, p, o, i);
      assert GroupOf(slices, p) in groups;
    }
    if n.name in NonOwned(i, groups) {
      var g :| g in groups && i in g.members && i != Min(g.members.Keys) && n.name in g.members[i];
      MembersAre(slices, g.param, |slices|);
      NamesOfMember(slices[i], g.param, n.name);
      SameName(slices[i], n, g.param);
      GroupOwner(net, slices, p, i);
    }
  }

  lemma SameName(slice: seq<Named>, n: Named, q: Param)
    requires DistinctNames(slice) && n in slice && exists j :: 0 <= j < |slice| && slice[j] == Named(n.name, q)
    ensures n.param == q
  {
    var a :| 0 <= a < |slice| && slice[a] == n;
    var b :| 0 <= b < |slice| && slice[b] == Named(n.name, q);
    assert slice[a].name == slice[b].name;
  }

  /** A parameter used by two slices has at least two names. */
  lemma TwoUses(net: Net, slices: seq<seq<Named>>, p: Param, a: nat, b: nat)
    requires Slices(net, slices) && a < b < net.n && p in net.uses(a) && p in net.uses(b)
    ensures |Uses(slices, p, |slices|)| >= 2
  {
    hide NamesOf, ParamsIn, Uses;
    assert net.uses(a) == ParamsIn(slices[a]) && net.uses(b) == ParamsIn(slices[b]);
    NamesOfUser(slices[a], p);
    NamesOfUser(slices[b], p);
    CountUses(slices, p, a, b);
    UsesGrow(slices, p, a + 1, b);
    UsesGrow(slices, p, b + 1, |slices|);
  }

  lemma CountUses(slices: seq<seq<Named>>, p: Param, a: nat, b: nat)
    requires a < |slices| && b < |slices|
    ensures |Uses(slices, p, a + 1)| == |Uses(slices, p, a)| + |NamesOf(slices[a], p)|
    ensures |Uses(slices, p, b + 1)| == |Uses(slices, p, b)| + |NamesOf(slices[b], p)|
  {
  }

  lemma {:induction false} UsesGrow(slices: seq<seq<Named>>, p: Param, j: nat, k: nat)
    requires j <= k <= |slices|
    ensures |Uses(slices, p, j)| <= |Uses(slices, p, k)|
  {
    if j < k { UsesGrow(slices, p, j, k - 1); }
  }

  /** Every trainable parameter is held by exactly one optimizer, the one of the lowest slice that
      uses it. */
  lemma HeldByOwnerOnly(net: Net, slices: seq<seq<Named>>, groups: seq<Group>, trainable: set<Param>, i: nat, p: Param)
    requires Slices(net, slices) && i < net.n && p in trainable
    requires forall g | g in groups :: g == GroupOf(slices, g.param)
    requires forall p | |Uses(slices, p, |slices|)| >= 2 :: GroupOf(slices, p) in groups
    ensures p in OptimizerParams(slices[i], trainable, NonOwned(i, groups)) <==> p in Owned(net, i)
  {
    var exclude := NonOwned(i, groups);
    forall n | n in slices[i] ensures n.name in exclude <==> Owner(net, n.param) != i {
      Excluded(net, slices, groups, i, n);
    }
    var params := set n | n in slices[i] && n.name !in exclude :: n.param;
    if p in Owned(net, i) {
      var n :| n in slices[i] && n.param == p;
      assert p in params;
    }
    if p in params {
      var n :| n in slices[i] && n.name !in exclude && n.param == p;
      assert p in ParamsIn(slices[i]);
    }
  }
}
