/** Identity generators: a salt and a counter, resumed and advanced after a restart. */
module Identities {
  import opened Wire

  datatype Generator = Generator(salt: U64, counter: U64)

  /** An identity as one number, high half first. */
  function Join(high: U64, low: U64): nat { high * TWO_64 + low }

  /** The identity issued last; with a zero counter, a number below every identity to come. */
  function Last(g: Generator): nat { Join(g.salt, g.counter) }

  /** The state after the next identity is issued. */
  function Stepped(g: Generator): (r: Generator)
    requires g.salt != 0
    ensures r.salt != 0 && r.counter != 0
  {
    if g.counter + 1 < TWO_64 then g.(counter := g.counter + 1)
    else if g.salt + 1 < TWO_64 then Generator(g.salt + 1, 1)
    else Generator(1, 1)
  }

  /** The first n identities a generator issues. */
  function Issued(g: Generator, n: nat): (s: seq<nat>)
    requires g.salt != 0
    ensures |s| == n
    decreases n
  {
    if n == 0 then [] else [Last(Stepped(g))] + Issued(Stepped(g), n - 1)
  }

  /** How many identities are left before the salt wraps: the rest of this salt, then every later one. */
  function Room(g: Generator): nat {
    (TWO_64 - 1 - g.counter) + (TWO_64 - 1 - g.salt) * (TWO_64 - 1)
  }

  lemma RoomShrinks(g: Generator)
    requires g.salt != 0 && Room(g) > 0
    ensures Room(Stepped(g)) == Room(g) - 1 && Last(Stepped(g)) > Last(g)
  {
  }

  /** Everything a generator issues before its salt wraps is distinct, non-zero and beyond what it
      issued before; the very next identity is not. */
  lemma {:induction false} IssuedIncreases(g: Generator, n: nat, i: nat)
    requires g.salt != 0 && n <= Room(g) && i < n
    ensures Issued(g, n)[i] > Last(g) && Issued(g, n)[i] != 0
    ensures forall j :: i < j < n ==> Issued(g, n)[i] < Issued(g, n)[j]
    decreases n
  {
    hide Room, Last;
    RoomShrinks(g);
    var rest := Issued(Stepped(g), n - 1);
    if i > 0 {
      IssuedIncreases(Stepped(g), n - 1, i - 1);
      forall j | i < j < n ensures Issued(g, n)[i] < Issued(g, n)[j] {
        assert rest[i - 1] < rest[j - 1];
      }
    } else {
      forall j | 0 < j < n ensures Issued(g, n)[0] < Issued(g, n)[j] {
        IssuedIncreases(Stepped(g), n - 1, j - 1);
      }
    }
  }

  /** Without room left the next identity starts over, at the lowest salt. */
  lemma WrapsExactly(g: Generator)
    requires g.salt != 0
    ensures Last(Stepped(g)) > Last(g) <==> Room(g) > 0
  {
    if Room(g) > 0 {
      RoomShrinks(g);
    }
  }

  // ----- Resuming -----

  /** No stored identity of this salt lies beyond the counter. */
  predicate Ahead(g: Generator, keys: set<nat>) {
    forall k :: k in keys && k / TWO_64 == g.salt ==> k % TWO_64 <= g.counter
  }

  /** A generator ahead of a set of identities issues none of them while its counter lasts. */
  lemma {:induction false} NeverReissues(g: Generator, keys: set<nat>, n: nat, i: nat)
    requires Ahead(g, keys) && g.salt != 0 && g.counter + n < TWO_64 && i < n
    ensures Issued(g, n)[i] !in keys
    decreases n
  {
    JoinSplits(g.salt, g.counter + 1);
    if i > 0 {
      NeverReissues(Stepped(g), keys, n - 1, i - 1);
    }
  }

  lemma JoinSplits(high: U64, low: U64)
    ensures Join(high, low) / TWO_64 == high && Join(high, low) % TWO_64 == low
  {
  }

  /** The least counter that is not behind. */
  ghost predicate IsObserved(g: Generator, keys: set<nat>, r: Generator) {
    && r.salt == g.salt && r.counter >= g.counter && Ahead(r, keys)
    && (r.counter > g.counter ==> exists k :: k in keys && k / TWO_64 == g.salt && k % TWO_64 == r.counter)
  }

  /** A generator that is already ahead stays as it is. */
  lemma AheadIsUnchanged(g: Generator, keys: set<nat>, r: Generator)
    requires Ahead(g, keys) && IsObserved(g, keys, r)
    ensures r == g
  {
  }

  class IdentityGenerator {
    var salt: U64
    var counter: U64

    function View(): Generator
      reads this
    {
      Generator(salt, counter)
    }

    ghost predicate Valid()
      reads this
    {
      salt != 0
    }

    constructor (chosen: U64)
      ensures Valid() && View() == Generator(if chosen == 0 then 1 else chosen, 0)
    {
      salt := if chosen == 0 then 1 else chosen;
      counter := 0;
    }

    /** Both halves of the next identity; never both zero. */
    method Next() returns (id: Identity)
      requires Valid()
      modifies this
      ensures Valid() && View() == Stepped(old(View()))
      ensures id == Identity(salt, counter) && id.Valid() && Join(id.high, id.low) == Last(View())
    {
      counter := (counter + 1) % TWO_64;
      if counter == 0 {
        salt := (salt + 1) % TWO_64;
        if salt == 0 {
          salt := 1;
        }
        counter := 1;
      }
      return Identity(salt, counter);
    }

    method ResumeAfter(newSalt: U64, newCounter: U64)
      modifies this
      ensures Valid() && View() == Generator(if newSalt == 0 then 1 else newSalt, newCounter)
    {
      salt := if newSalt == 0 then 1 else newSalt;
      counter := newCounter;
    }

    method ObserveExisting(high: U64, low: U64)
      requires Valid()
      modifies this
      ensures Valid() && salt == old(salt)
      ensures counter == if high == old(salt) && low > old(counter) then low else old(counter)
    {
      if high != salt {
        return;
      }
      if low > counter {
        counter := low;
      }
    }

    /** Advances past every identity of a restored table, in any order. */
    method ObserveAll(keys: set<nat>)
      requires Valid()
      modifies this
      ensures Valid() && IsObserved(old(View()), keys, View())
    {
      var todo := keys;
      while todo != {}
        invariant todo <= keys && Valid()
        invariant IsObserved(old(View()), keys - todo, View())
        decreases |todo|
      {
        var k :| k in todo;
        ghost var before := View();
        if k / TWO_64 < TWO_64 {
          ObserveExisting(k / TWO_64, k % TWO_64);
        }
        ObservedOne(old(View()), keys - todo, k, before, View());
        assert keys - (todo - {k}) == (keys - todo) + {k};
        todo := todo - {k};
      }
      assert keys - todo == keys;
    }

    static lemma ObservedOne(g: Generator, seen: set<nat>, k: nat, before: Generator, after: Generator)
      requires IsObserved(g, seen, before) && after.salt == before.salt
      requires after.counter == if k / TWO_64 == before.salt && k % TWO_64 > before.counter then k % TWO_64 else before.counter
      ensures IsObserved(g, seen + {k}, after)
    {
    }
  }
}
