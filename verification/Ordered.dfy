/** Maps iterated in ascending key order, and lists of names sorted without repetition. */
module Ordered {
  ghost predicate IsMin(keys: set<nat>, k: nat) {
    k in keys && forall j :: j in keys ==> k <= j
  }

  lemma {:induction false} MinExists(keys: set<nat>) returns (k: nat)
    requires keys != {}
    ensures IsMin(keys, k)
  {
    var x: nat :| x in keys;
    var rest := keys - {x};
    if rest == {} {
      k := x;
      assert forall j :: j in keys ==> j == x || j in rest;
    } else {
      k := MinExists(rest);
      assert forall j :: j in keys ==> j == x || j in rest;
      k := if k <= x then k else x;
    }
  }

  /** The first key in iteration order. */
  function MinKey(keys: set<nat>): (k: nat)
    requires keys != {}
    ensures k in keys && forall j :: j in keys ==> k <= j
  {
    assert exists k :: IsMin(keys, k) by {
      var k := MinExists(keys);
    }
    var k :| k in keys && forall j :: j in keys ==> k <= j;
    k
  }

  /** Inserts after dropping the first entry when the map is at its bound. */
  function Retain<V>(m: map<nat, V>, bound: nat, key: nat, value: V): (r: map<nat, V>)
    ensures key in r && r[key] == value
    ensures forall k :: k in r && k != key ==> k in m && r[k] == m[k]
  {
    (if |m| >= bound && m != map[] then m - {MinKey(m.Keys)} else m)[key := value]
  }

  /** The first key in iteration order. */
  method FirstKey(keys: set<nat>) returns (k: nat)
    requires keys != {}
    ensures k == MinKey(keys)
  {
    k :| k in keys;
    var rest := keys - {k};
    while rest != {}
      invariant rest <= keys && k in keys
      invariant forall j :: j in keys && j !in rest ==> k <= j
      decreases |rest|
    {
      var j :| j in rest;
      k := if j < k then j else k;
      rest := rest - {j};
    }
  }

  // ----- Names -----

  /** Bytewise order, a proper prefix first. */
  predicate Before(a: string, b: string)
    decreases |a|
  {
    b != "" && (a == "" || a[0] < b[0] || (a[0] == b[0] && Before(a[1..], b[1..])))
  }

  lemma {:induction false} BeforeIsOrder(a: string, b: string, c: string)
    ensures !Before(a, a) && (Before(a, b) || a == b || Before(b, a))
    ensures Before(a, b) && Before(b, c) ==> Before(a, c)
    decreases |a|
  {
    if a != "" {
      BeforeIsOrder(a[1..], if b == "" then "" else b[1..], if c == "" then "" else c[1..]);
      if b != "" && a[0] == b[0] && a[1..] == b[1..] {
        assert a == [a[0]] + a[1..] && b == [b[0]] + b[1..];
      }
    }
  }

  /** Sorted, each name once. */
  predicate Ascending(names: seq<string>) { forall i, j :: 0 <= i < j < |names| ==> Before(names[i], names[j]) }

  function Inserted(names: seq<string>, name: string): seq<string> {
    if names == [] then [name]
    else if names[0] == name then names
    else if Before(name, names[0]) then [name] + names
    else [names[0]] + Inserted(names[1..], name)
  }

  function SortedNames(names: seq<string>): seq<string> {
    if names == [] then [] else Inserted(SortedNames(names[1..]), names[0])
  }

  lemma {:induction false} InsertedIsAscending(names: seq<string>, name: string)
    requires Ascending(names)
    ensures Ascending(Inserted(names, name)) && |Inserted(names, name)| <= |names| + 1
    ensures forall x :: x in Inserted(names, name) <==> x in names || x == name
    decreases |names|
  {
    hide Before;
    if names != [] {
      var rest := names[1..];
      BeforeIsOrder(name, names[0], name);
      assert forall x :: x in names <==> x == names[0] || x in rest;
      if Before(name, names[0]) {
        forall j | 0 <= j < |names| ensures Before(name, names[j]) {
          BeforeIsOrder(name, names[0], names[j]);
        }
      } else if names[0] != name {
        InsertedIsAscending(rest, name);
        var more := Inserted(rest, name);
        forall j | 0 <= j < |more| ensures Before(names[0], more[j]) {
          assert more[j] in more;
        }
      }
    }
  }

  /** The same names, sorted, each once. */
  lemma {:induction false} SortedNamesMeaning(names: seq<string>)
    ensures Ascending(SortedNames(names)) && |SortedNames(names)| <= |names|
    ensures forall x :: x in SortedNames(names) <==> x in names
    decreases |names|
  {
    hide Inserted, Ascending;
    if names == [] {
      assert Ascending([]) by { NothingAscends(); }
    } else {
      SortedNamesMeaning(names[1..]);
      InsertedIsAscending(SortedNames(names[1..]), names[0]);
      assert forall x :: x in names <==> x == names[0] || x in names[1..];
    }
  }

  lemma NothingAscends()
    ensures Ascending([])
  {
  }

  /** There is one such list. */
  lemma {:induction false} AscendingIsUnique(a: seq<string>, b: seq<string>)
    requires Ascending(a) && Ascending(b) && forall x :: x in a <==> x in b
    ensures a == b
    decreases |a|
  {
    hide Before;
    if a == [] {
      SomeName(b);
    } else {
      assert a[0] in b;
      assert b[0] in a;
      BeforeIsOrder(a[0], b[0], a[0]);
      BeforeIsOrder(b[0], a[0], b[0]);
      assert a[0] == b[0];
      SameTails(a, b);
      AscendingIsUnique(a[1..], b[1..]);
      assert a == [a[0]] + a[1..] && b == [b[0]] + b[1..];
    }
  }

  lemma SomeName(names: seq<string>)
    ensures names == [] || exists x :: x in names
  {
    assert names != [] ==> names[0] in names;
  }

  lemma SameTails(a: seq<string>, b: seq<string>)
    requires Ascending(a) && Ascending(b) && (forall x :: x in a <==> x in b) && a != [] && b != [] && a[0] == b[0]
    ensures forall x :: x in a[1..] <==> x in b[1..]
  {
    hide Before;
    forall x | x in a[1..] || x in b[1..] ensures x != a[0] {
      BeforeIsOrder(a[0], x, x);
      BeforeIsOrder(x, a[0], x);
    }
    assert forall x :: x in a <==> x == a[0] || x in a[1..];
    assert forall x :: x in b <==> x == b[0] || x in b[1..];
  }
}
