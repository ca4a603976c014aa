// Splicing a system into a feature's ordered per-kind system lists: append
// it, insert it before the first system of a given type, or replace the
// first system of a given type.

module SystemInstaller {

  /** The system interfaces a feature keeps one ordered list for
      (the `_{kind}Systems` fields). */
  datatype Kind = Initialize | Execute | Cleanup | TearDown | Enable | Disable

  /** A system object: the names of the types it is an instance of (its
      class, base classes and interfaces) and the system interfaces it
      implements. */
  datatype System = System(types: set<string>, kinds: set<Kind>)

  /** The run-time type test `s is T`. */
  predicate IsA(s: System, t: string)
  {
    t in s.types
  }

  /** The position of the first system of type `t`, or `|systems|` when
      there is none. */
  function FirstMatch(systems: seq<System>, t: string): (i: nat)
    ensures i <= |systems|
    ensures forall j :: 0 <= j < i ==> !IsA(systems[j], t)
    ensures i < |systems| ==> IsA(systems[i], t)
  {
    if systems == [] || IsA(systems[0], t) then 0
    else 1 + FirstMatch(systems[1..], t)
  }

  /** `systems` with `x` inserted just before the first system of type `t`,
      or at the end when there is none. */
  function InsertedBefore(systems: seq<System>, t: string, x: System): (r: seq<System>)
    ensures |r| == |systems| + 1
  {
    var i := FirstMatch(systems, t);
    systems[..i] + [x] + systems[i..]
  }

  /** `systems` with the first system of type `t` replaced by `x`. */
  function Replaced(systems: seq<System>, t: string, x: System): (r: seq<System>)
    ensures |r| == |systems|
    ensures forall j :: 0 <= j < |r| && r[j] != x ==> r[j] == systems[j]
  {
    var i := FirstMatch(systems, t);
    if i < |systems| then systems[i := x] else systems
  }

  /** Every per-kind list of `lists` after `InsertedBefore`, for each of
      the given kinds. */
  function InsertedBeforeAll(lists: map<Kind, seq<System>>, t: string, x: System, kinds: set<Kind>): (r: map<Kind, seq<System>>)
    ensures r.Keys == lists.Keys
  {
    map k | k in lists :: if k in kinds then InsertedBefore(lists[k], t, x) else lists[k]
  }

  /** Every per-kind list of `lists` after `Replaced`, for each of the given
      kinds. */
  function ReplacedAll(lists: map<Kind, seq<System>>, t: string, x: System, kinds: set<Kind>): (r: map<Kind, seq<System>>)
    ensures r.Keys == lists.Keys
  {
    map k | k in lists :: if k in kinds then Replaced(lists[k], t, x) else lists[k]
  }

  /** Every per-kind list holds only systems that implement its kind. */
  predicate HoldTheirKinds(lists: map<Kind, seq<System>>)
  {
    forall k, j :: k in lists && 0 <= j < |lists[k]| ==> k in lists[k][j].kinds
  }

  /** Inserting a system only into lists of kinds it implements keeps every
      list holding systems of its kind, and the installee is then in each of
      those lists. */
  lemma InsertingKeepsKinds(lists: map<Kind, seq<System>>, t: string, x: System, kinds: set<Kind>)
    requires HoldTheirKinds(lists) && kinds <= x.kinds
    ensures var r := InsertedBeforeAll(lists, t, x, kinds);
      && r.Keys == lists.Keys
      && HoldTheirKinds(r)
      && (forall k :: k in lists && k in kinds ==> x in r[k])
  {
    var r: map<Kind, seq<System>> := InsertedBeforeAll(lists, t, x, kinds);
    forall k | k in lists && k in kinds
      ensures x in r[k]
      ensures forall j :: 0 <= j < |r[k]| ==> k in r[k][j].kinds
    {
      InsertedBeforeShape(lists[k], t, x);
      var i := FirstMatch(lists[k], t);
      forall j | 0 <= j < |r[k]|
        ensures k in r[k][j].kinds
      {
        if j < i {
          assert r[k][j] == lists[k][j];
        } else if i < j {
          assert r[k][j] == lists[k][j - 1];
        }
      }
    }
  }

  /** Replacing only in lists of kinds the replacement implements keeps every
      list holding systems of its kind, and the replacement is in each of
      those lists that had a system of the type. */
  lemma ReplacingKeepsKinds(lists: map<Kind, seq<System>>, t: string, x: System, kinds: set<Kind>)
    requires HoldTheirKinds(lists) && kinds <= x.kinds
    ensures var r := ReplacedAll(lists, t, x, kinds);
      && r.Keys == lists.Keys
      && HoldTheirKinds(r)
      && (forall k :: k in lists && k in kinds && FirstMatch(lists[k], t) < |lists[k]| ==> x in r[k])
  {
    var r: map<Kind, seq<System>> := ReplacedAll(lists, t, x, kinds);
    forall k | k in lists && k in kinds
      ensures FirstMatch(lists[k], t) < |lists[k]| ==> x in r[k]
      ensures forall j :: 0 <= j < |r[k]| ==> k in r[k][j].kinds
    {
      ReplacedShape(lists[k], t, x);
      var i := FirstMatch(lists[k], t);
      if i < |lists[k]| {
        assert r[k][i] == x;
      }
    }
  }

  /** The installee lands just before the first system of type `t` (or at
      the end), and taking it out again gives back the original list in its
      original order. */
  lemma InsertedBeforeShape(systems: seq<System>, t: string, x: System)
    ensures var r, i := InsertedBefore(systems, t, x), FirstMatch(systems, t);
      && |r| == |systems| + 1
      && r[i] == x
      && r[..i] + r[i + 1..] == systems
      && (forall j :: 0 <= j < i ==> !IsA(r[j], t))
      && (i < |systems| ==> IsA(r[i + 1], t))
  {
    var r, i := InsertedBefore(systems, t, x), FirstMatch(systems, t);
    assert r == systems[..i] + [x] + systems[i..];
    assert r[..i] == systems[..i];
    assert r[i + 1..] == systems[i..];
    assert systems[..i] + systems[i..] == systems;
  }

  /** Inserting adds the installee and loses no system. */
  lemma InsertedBeforeAddsOne(systems: seq<System>, t: string, x: System)
    ensures multiset(InsertedBefore(systems, t, x)) == multiset(systems) + multiset{x}
  {
    var i := FirstMatch(systems, t);
    assert systems == systems[..i] + systems[i..];
  }

  /** With no system of type `t`, the installee is appended. */
  lemma InsertedBeforeAppends(systems: seq<System>, t: string, x: System)
    requires forall j :: 0 <= j < |systems| ==> !IsA(systems[j], t)
    ensures InsertedBefore(systems, t, x) == systems + [x]
  {
    FirstMatchIsUnique(systems, t, |systems|);
    assert systems[..|systems|] == systems;
  }

  /** Only the first system of type `t` is overwritten; with none, nothing
      changes. */
  lemma ReplacedShape(systems: seq<System>, t: string, x: System)
    ensures var r, i := Replaced(systems, t, x), FirstMatch(systems, t);
      && |r| == |systems|
      && (forall j :: 0 <= j < |systems| && j != i ==> r[j] == systems[j])
      && (i < |systems| ==> r[i] == x && IsA(systems[i], t))
      && ((forall j :: 0 <= j < |systems| ==> !IsA(systems[j], t)) ==> r == systems)
  {
    if forall j :: 0 <= j < |systems| ==> !IsA(systems[j], t) {
      FirstMatchIsUnique(systems, t, |systems|);
    }
  }

  /** An Entitas feature: a group of systems run in order, kept in one list
      per system interface. A kind missing from `lists` is a feature that has
      no `_{kind}Systems` field. */
  class Feature {
    var lists: map<Kind, seq<System>>

    /** A list of kind `k` holds only systems that implement `k`. */
    ghost predicate Valid()
      reads this
    {
      HoldTheirKinds(lists)
    }

    constructor (lists: map<Kind, seq<System>>)
      requires HoldTheirKinds(lists)
      ensures Valid() && this.lists == lists
    {
      this.lists := lists;
    }

    /** `Systems.Add`: the system goes at the end of the list of every kind
        it implements. */
    method Add(installee: System)
      requires Valid()
      modifies this
      ensures Valid()
      ensures lists.Keys == old(lists).Keys
      ensures forall k :: k in lists ==>
        lists[k] == if k in installee.kinds then old(lists)[k] + [installee] else old(lists)[k]
    {
      lists := map k | k in lists :: if k in installee.kinds then lists[k] + [installee] else lists[k];
    }
  }

  /** Installs `installee` after every system already in the feature. */
  method InstallAtEnd(feature: Feature, installee: System)
    requires feature.Valid()
    modifies feature
    ensures feature.Valid()
    ensures feature.lists.Keys == old(feature.lists).Keys
    ensures forall k :: k in feature.lists && k in installee.kinds ==>
      |feature.lists[k]| == |old(feature.lists)[k]| + 1 &&
      feature.lists[k][|feature.lists[k]| - 1] == installee &&
      feature.lists[k][..|feature.lists[k]| - 1] == old(feature.lists)[k]
    ensures forall k :: k in feature.lists && k !in installee.kinds ==>
      feature.lists[k] == old(feature.lists)[k]
  {
    feature.Add(installee);
  }

  /** Inserts `installee` into the list of one kind just before the first
      system of type `t`, or appends it when the list holds none. A feature
      without a list of that kind is left as it is. */
  method InstallBeforeOfKind(feature: Feature, kind: Kind, t: string, installee: System)
    requires feature.Valid() && kind in installee.kinds
    modifies feature
    ensures feature.Valid()
    ensures kind !in old(feature.lists) ==> feature.lists == old(feature.lists)
    ensures kind in old(feature.lists) ==>
      feature.lists == old(feature.lists)[kind := InsertedBefore(old(feature.lists)[kind], t, installee)]
  {
    if kind !in feature.lists {
      return;
    }
    var systems := feature.lists[kind];
    var i := 0;
    while i < |systems| && !IsA(systems[i], t)
      invariant 0 <= i <= |systems|
      invariant forall j :: 0 <= j < i ==> !IsA(systems[j], t)
    {
      i := i + 1;
    }
    FirstMatchIsUnique(systems, t, i);
    if i != |systems| {
      systems := systems[..i] + [installee] + systems[i..];
    } else {
      assert systems[..i] == systems && systems[i..] == [];
      systems := systems + [installee];
    }
    assert systems == InsertedBefore(old(feature.lists)[kind], t, installee);
    feature.lists := feature.lists[kind := systems];
  }

  /** Overwrites the first system of type `t` in the list of one kind with
      `replacement`; the list is unchanged when it holds none. */
  method ReplaceOfKind(feature: Feature, kind: Kind, t: string, replacement: System)
    requires feature.Valid() && kind in replacement.kinds
    requires kind in feature.lists
    modifies feature
    ensures feature.Valid()
    ensures feature.lists == old(feature.lists)[kind := Replaced(old(feature.lists)[kind], t, replacement)]
  {
    var systems := feature.lists[kind];
    var i := 0;
    while i < |systems|
      invariant 0 <= i <= |systems|
      invariant forall j :: 0 <= j < i ==> !IsA(systems[j], t)
    {
      if IsA(systems[i], t) {
        FirstMatchIsUnique(systems, t, i);
        feature.lists := feature.lists[kind := systems[i := replacement]];
        return;
      }
      i := i + 1;
    }
    FirstMatchIsUnique(systems, t, i);
  }

  /** Inserts `installee` before the first system of type `t` in the list of
      every kind it implements; `installed` is false exactly when it
      implements none, which is the case the installer warns about. */
  method InstallBefore(feature: Feature, t: string, installee: System) returns (installed: bool)
    requires feature.Valid()
    modifies feature
    ensures feature.Valid()
    ensures installed <==> installee.kinds != {}
    ensures feature.lists == InsertedBeforeAll(old(feature.lists), t, installee, installee.kinds)
  {
    ghost var before := feature.lists;
    ghost var done: set<Kind> := {};
    assert before == InsertedBeforeAll(before, t, installee, installee.kinds * done);
    var init := InstallBeforeIfKind(feature, Initialize, t, installee, before, done);
    done := done + {Initialize};
    var exec := InstallBeforeIfKind(feature, Execute, t, installee, before, done);
    done := done + {Execute};
    var cleanup := InstallBeforeIfKind(feature, Cleanup, t, installee, before, done);
    done := done + {Cleanup};
    var tearDown := InstallBeforeIfKind(feature, TearDown, t, installee, before, done);
    done := done + {TearDown};
    var enable := InstallBeforeIfKind(feature, Enable, t, installee, before, done);
    done := done + {Enable};
    var disable := InstallBeforeIfKind(feature, Disable, t, installee, before, done);
    done := done + {Disable};
    installed := init || exec || cleanup || tearDown || enable || disable;
    assert done == {Initialize, Execute, Cleanup, TearDown, Enable, Disable};
    AllKindsCovered(installee.kinds);
  }

  /** One of the type tests of `InstallBefore`: when `installee` implements
      `kind`, install it in that list. */
  method InstallBeforeIfKind(feature: Feature, kind: Kind, t: string, installee: System,
                             ghost before: map<Kind, seq<System>>, ghost done: set<Kind>) returns (hit: bool)
    requires feature.Valid() && kind !in done
    requires feature.lists == InsertedBeforeAll(before, t, installee, installee.kinds * done)
    modifies feature
    ensures feature.Valid()
    ensures hit <==> kind in installee.kinds
    ensures feature.lists == InsertedBeforeAll(before, t, installee, installee.kinds * (done + {kind}))
  {
    hit := kind in installee.kinds;
    if hit {
      InstallBeforeOfKind(feature, kind, t, installee);
    }
    assert installee.kinds * (done + {kind}) == installee.kinds * done + (if hit then {kind} else {});
  }

  /** Replaces the first system of type `t` in the list of every kind that
      `replacement` implements; `installed` is false exactly when it
      implements none. The lists are read without checking that the feature
      has them, so every kind the replacement implements must have one. */
  method Replace(feature: Feature, t: string, replacement: System) returns (installed: bool)
    requires feature.Valid()
    requires forall k :: k in replacement.kinds ==> k in feature.lists
    modifies feature
    ensures feature.Valid()
    ensures installed <==> replacement.kinds != {}
    ensures feature.lists == ReplacedAll(old(feature.lists), t, replacement, replacement.kinds)
  {
    ghost var before := feature.lists;
    ghost var done: set<Kind> := {};
    assert before == ReplacedAll(before, t, replacement, replacement.kinds * done);
    var init := ReplaceIfKind(feature, Initialize, t, replacement, before, done);
    done := done + {Initialize};
    var exec := ReplaceIfKind(feature, Execute, t, replacement, before, done);
    done := done + {Execute};
    var cleanup := ReplaceIfKind(feature, Cleanup, t, replacement, before, done);
    done := done + {Cleanup};
    var tearDown := ReplaceIfKind(feature, TearDown, t, replacement, before, done);
    done := done + {TearDown};
    var enable := ReplaceIfKind(feature, Enable, t, replacement, before, done);
    done := done + {Enable};
    var disable := ReplaceIfKind(feature, Disable, t, replacement, before, done);
    done := done + {Disable};
    installed := init || exec || cleanup || tearDown || enable || disable;
    assert done == {Initialize, Execute, Cleanup, TearDown, Enable, Disable};
    AllKindsCovered(replacement.kinds);
  }

  /** One of the type tests of `Replace`: when `replacement` implements
      `kind`, replace in that list. */
  method ReplaceIfKind(feature: Feature, kind: Kind, t: string, replacement: System,
                       ghost before: map<Kind, seq<System>>, ghost done: set<Kind>) returns (hit: bool)
    requires feature.Valid() && kind !in done
    requires kind in replacement.kinds ==> kind in before
    requires feature.lists == ReplacedAll(before, t, replacement, replacement.kinds * done)
    modifies feature
    ensures feature.Valid()
    ensures hit <==> kind in replacement.kinds
    ensures feature.lists == ReplacedAll(before, t, replacement, replacement.kinds * (done + {kind}))
  {
    hit := kind in replacement.kinds;
    if hit {
      ReplaceOfKind(feature, kind, t, replacement);
    }
    assert replacement.kinds * (done + {kind}) == replacement.kinds * done + (if hit then {kind} else {});
  }

  /** Every kind is one of the six the dispatchers test for. */
  lemma AllKindsCovered(kinds: set<Kind>)
    ensures kinds * {Initialize, Execute, Cleanup, TearDown, Enable, Disable} == kinds
  {
    forall k | k in kinds ensures k in {Initialize, Execute, Cleanup, TearDown, Enable, Disable} {
      match k
      case Initialize =>
      case Execute =>
      case Cleanup =>
      case TearDown =>
      case Enable =>
      case Disable =>
    }
  }

  /** The one thing a search for the first match can stop at. */
  lemma {:induction false} FirstMatchIsUnique(systems: seq<System>, t: string, i: nat)
    requires i <= |systems|
    requires forall j :: 0 <= j < i ==> !IsA(systems[j], t)
    requires i < |systems| ==> IsA(systems[i], t)
    ensures FirstMatch(systems, t) == i
  {
    if systems != [] && !IsA(systems[0], t) {
      FirstMatchIsUnique(systems[1..], t, i - 1);
    }
  }
}
